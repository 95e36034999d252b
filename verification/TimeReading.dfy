/** Reading stored timestamps back: the layout of RFC 3339, section 5.6, read position by position. */
module TimeReading {
  import opened Text
  import opened TimeText

  /** The digits between two positions. */
  predicate DigitsAt(s: string, from: nat, to: nat) {
    from <= to <= |s| && IsDigits(s[from..to])
  }

  function NumberAt(s: string, from: nat, to: nat): nat
    requires DigitsAt(s, from, to)
  {
    DigitsValue(s[from..to])
  }

  /** date-time of RFC 3339 in UTC: yyyy-mm-ddThh:mm:ss, up to nine fraction digits, Z. */
  predicate IsTimestamp(s: string) {
    && |s| >= 20 && DigitsAt(s, 0, 4) && s[4] == '-' && DigitsAt(s, 5, 7) && s[7] == '-' && DigitsAt(s, 8, 10)
    && s[10] == 'T' && DigitsAt(s, 11, 13) && s[13] == ':' && DigitsAt(s, 14, 16) && s[16] == ':' && DigitsAt(s, 17, 19)
    && s[|s| - 1] == 'Z'
    && (|s| == 20 || (s[19] == '.' && 22 <= |s| <= 30 && DigitsAt(s, 20, |s| - 1)))
  }

  /** parseTime on such text: the instant it denotes. */
  function ReadTime(s: string): int
    requires IsTimestamp(s)
  {
    var year, month, day := NumberAt(s, 0, 4), NumberAt(s, 5, 7), NumberAt(s, 8, 10);
    var days := DaysBeforeYear(year) + DaysBeforeMonth(year, month) + day - 1;
    var seconds := 3600 * NumberAt(s, 11, 13) + 60 * NumberAt(s, 14, 16) + NumberAt(s, 17, 19);
    var nanos := if |s| == 20 then 0 else NumberAt(s, 20, |s| - 1) * Pow10(30 - |s|);
    (days * 86_400 + seconds) * 1_000_000_000 + nanos
  }

  lemma TwoDigits(n: nat)
    requires n < 100
    ensures |Pad(n, 2)| == 2 && DigitsValue(Pad(n, 2)) == n
  {
    PadValue(n, 2);
    assert Pow10(2) == 100;
  }

  lemma FourDigits(n: nat)
    requires n < 10_000
    ensures |Pad(n, 4)| == 4 && DigitsValue(Pad(n, 4)) == n
  {
    PadValue(n, 4);
    assert Pow10(2) == 100;
    assert Pow10(4) == 10_000;
  }

  /** The digits between two positions denote n. */
  predicate Field(s: string, from: nat, to: nat, n: nat) {
    DigitsAt(s, from, to) && NumberAt(s, from, to) == n
  }

  lemma WholeField(u: string)
    requires IsDigits(u)
    ensures Field(u, 0, |u|, DigitsValue(u))
  {
    assert u[0..|u|] == u;
  }

  lemma FieldPrefix(s: string, t: string, from: nat, to: nat, n: nat)
    requires Field(s, from, to, n)
    ensures Field(s + t, from, to, n)
  {
    assert (s + t)[from..to] == s[from..to];
  }

  lemma FieldShift(p: string, s: string, from: nat, to: nat, n: nat)
    requires Field(s, from, to, n)
    ensures Field(p + s, |p| + from, |p| + to, n)
  {
    assert (p + s)[|p| + from..|p| + to] == s[from..to];
  }

  /** The text up to whole seconds, with its fields at their places. */
  predicate Laid(s: string, year: nat, month: nat, day: nat, h: nat, m: nat, sec: nat) {
    && |s| == 19 && s[4] == '-' && s[7] == '-' && s[10] == 'T' && s[13] == ':' && s[16] == ':'
    && Field(s, 0, 4, year) && Field(s, 5, 7, month) && Field(s, 8, 10, day)
    && Field(s, 11, 13, h) && Field(s, 14, 16, m) && Field(s, 17, 19, sec)
  }

  /** Three numbers with a separator between them. */
  lemma ThreeFields(a: string, p: string, b: string, c: string)
    requires |p| == 1 && IsDigits(a) && IsDigits(b) && IsDigits(c)
    ensures var s := a + (p + (b + (p + c)));
            && |s| == |a| + |b| + |c| + 2 && s[|a|] == p[0] && s[|a| + 1 + |b|] == p[0]
            && Field(s, 0, |a|, DigitsValue(a)) && Field(s, |a| + 1, |a| + 1 + |b|, DigitsValue(b))
            && Field(s, |a| + |b| + 2, |a| + |b| + 2 + |c|, DigitsValue(c))
  {
    hide Field, DigitsValue;
    WholeField(a);
    WholeField(b);
    WholeField(c);
    FieldPrefix(a, p + (b + (p + c)), 0, |a|, DigitsValue(a));
    FieldPrefix(b, p + c, 0, |b|, DigitsValue(b));
    FieldShift(p, b + (p + c), 0, |b|, DigitsValue(b));
    FieldShift(a, p + (b + (p + c)), 1, 1 + |b|, DigitsValue(b));
    FieldShift(p, c, 0, |c|, DigitsValue(c));
    FieldShift(b, p + c, 1, 1 + |c|, DigitsValue(c));
    FieldShift(p, b + (p + c), |b| + 1, |b| + 1 + |c|, DigitsValue(c));
    FieldShift(a, p + (b + (p + c)), |b| + 2, |b| + 2 + |c|, DigitsValue(c));
  }

  lemma Assembled(date: string, clock: string, y: nat, mo: nat, d: nat, h: nat, mi: nat, sec: nat)
    requires |date| == 10 && date[4] == '-' && date[7] == '-' && Field(date, 0, 4, y) && Field(date, 5, 7, mo) && Field(date, 8, 10, d)
    requires |clock| == 8 && clock[2] == ':' && clock[5] == ':' && Field(clock, 0, 2, h) && Field(clock, 3, 5, mi) && Field(clock, 6, 8, sec)
    ensures Laid(date + ("T" + clock), y, mo, d, h, mi, sec)
  {
    hide Field;
    var rest := "T" + clock;
    FieldPrefix(date, rest, 0, 4, y);
    FieldPrefix(date, rest, 5, 7, mo);
    FieldPrefix(date, rest, 8, 10, d);
    FieldShift("T", clock, 0, 2, h);
    FieldShift("T", clock, 3, 5, mi);
    FieldShift("T", clock, 6, 8, sec);
    FieldShift(date, rest, 1, 3, h);
    FieldShift(date, rest, 4, 6, mi);
    FieldShift(date, rest, 7, 9, sec);
  }

  lemma DateLaid(day: nat)
    requires day < DAY_LIMIT
    ensures var s, date := DateText(day), DateOf(day);
            && |s| == 10 && s[4] == '-' && s[7] == '-'
            && Field(s, 0, 4, date.year) && Field(s, 5, 7, date.month) && Field(s, 8, 10, date.day)
  {
    hide Pad, DigitsValue, Field, DateHolds;
    var date := DateOf(day);
    FourDigitYear(day);
    FourDigits(date.year);
    TwoDigits(date.month);
    TwoDigits(date.day);
    ThreeFields(Pad(date.year, 4), "-", Pad(date.month, 2), Pad(date.day, 2));
  }

  lemma ClockLaid(clock: nat)
    requires clock < 86_400
    ensures var s := ClockText(clock);
            && |s| == 8 && s[2] == ':' && s[5] == ':'
            && Field(s, 0, 2, clock / 3600) && Field(s, 3, 5, clock / 60 % 60) && Field(s, 6, 8, clock % 60)
  {
    hide Pad, DigitsValue, Field;
    ClockParts(clock);
    TwoDigits(clock / 3600);
    TwoDigits(clock / 60 % 60);
    TwoDigits(clock % 60);
    ThreeFields(Pad(clock / 3600, 2), ":", Pad(clock / 60 % 60, 2), Pad(clock % 60, 2));
  }

  lemma StampLaid(second: nat)
    requires second / 86_400 < DAY_LIMIT
    ensures var date, clock := DateOf(second / 86_400), second % 86_400;
            Laid(Stamp(second), date.year, date.month, date.day, clock / 3600, clock / 60 % 60, clock % 60)
  {
    hide Laid, Field, DateText, ClockText, DateHolds;
    var day, clock := second / 86_400, second % 86_400;
    var date := DateOf(day);
    DateLaid(day);
    ClockLaid(clock);
    Assembled(DateText(day), ClockText(clock), date.year, date.month, date.day, clock / 3600, clock / 60 % 60, clock % 60);
  }

  lemma FractionReads(n: nat)
    requires n < SECOND
    ensures var u := TrimZeros(Pad(n, 9));
            |u| <= 9 && IsDigits(u) && DigitsValue(u) * Pow10(9 - |u|) == n && (u == "" ==> n == 0)
  {
    hide Pow10, Pad, TrimZeros, DigitsValue;
    PadValue(n, 9);
    Pow10Nine();
    SmallMod(n);
    TrimmedReads(Pad(n, 9));
  }

  lemma TrimmedReads(p: string)
    requires IsDigits(p)
    ensures var u := TrimZeros(p);
            |u| <= |p| && IsDigits(u) && DigitsValue(u) * Pow10(|p| - |u|) == DigitsValue(p) && (u == "" ==> DigitsValue(p) == 0)
  {
    hide Pow10, TrimZeros;
    var u := TrimZeros(p);
    var zeros := p[|u|..];
    assert p == u + zeros;
    TrailingZeros(u, zeros);
    assert DigitsValue("") == 0;
  }

  lemma SmallMod(n: nat)
    requires n < SECOND
    ensures n % SECOND == n
  {
  }

  lemma FieldsMakeSecond(second: nat)
    requires second / 86_400 < DAY_LIMIT
    ensures var date, clock := DateOf(second / 86_400), second % 86_400;
            (DaysBeforeYear(date.year) + DaysBeforeMonth(date.year, date.month) + date.day - 1) * 86_400
            + (3600 * (clock / 3600) + 60 * (clock / 60 % 60) + clock % 60) == second
  {
    hide DaysBeforeYear, DaysBeforeMonth;
    ClockParts(second % 86_400);
  }

  lemma ReadsLaid(stamp: string, tail: string, digits: string, second: nat, nanos: nat, date: TimeText.Date, h: nat, m: nat, sec: nat)
    requires Laid(stamp, date.year, date.month, date.day, h, m, sec)
    requires (DaysBeforeYear(date.year) + DaysBeforeMonth(date.year, date.month) + date.day - 1) * 86_400
             + (3600 * h + 60 * m + sec) == second
    requires IsDigits(digits) && |digits| <= 9 && DigitsValue(digits) * Pow10(9 - |digits|) == nanos
    requires tail == (if digits == "" then "Z" else "." + (digits + "Z")) && (digits == "" ==> nanos == 0)
    ensures IsTimestamp(stamp + tail) && ReadTime(stamp + tail) == second * 1_000_000_000 + nanos
  {
    hide DaysBeforeYear, DaysBeforeMonth, DigitsValue, Pow10;
    var s := stamp + tail;
    assert s[0..4] == stamp[0..4] && s[5..7] == stamp[5..7] && s[8..10] == stamp[8..10];
    assert s[11..13] == stamp[11..13] && s[14..16] == stamp[14..16] && s[17..19] == stamp[17..19];
    if digits != "" {
      assert s[20..|s| - 1] == digits;
    }
  }

  /** Every stored timestamp is an RFC 3339 date-time in UTC and reads back as the instant it was
      written for. */
  lemma FormatTimeReadsBack(t: nat)
    requires InRange(t)
    ensures IsTimestamp(FormatTime(t)) && ReadTime(FormatTime(t)) == t
  {
    hide Laid, DaysBeforeYear, DaysBeforeMonth, IsTimestamp, ReadTime, Stamp, Pad, DigitsValue, Pow10, TrimZeros, DateOf;
    DayInRange(t);
    var second := t / SECOND;
    var date, clock := DateOf(second / 86_400), second % 86_400;
    StampLaid(second);
    FieldsMakeSecond(second);
    FractionReads(t % SECOND);
    var u := FractionDigits(t);
    assert FractionTail(t) == if u == "" then "Z" else "." + (u + "Z");
    ReadsLaid(Stamp(second), FractionTail(t), u, second, t % SECOND, date, clock / 3600, clock / 60 % 60, clock % 60);
    assert t == second * SECOND + t % SECOND;
  }

  /** So do the bounds of the budget window, which always carry nine fraction digits. */
  lemma BudgetBoundReadsBack(t: nat)
    requires InRange(t)
    ensures IsTimestamp(FormatBudgetBound(t)) && |FormatBudgetBound(t)| == 30 && ReadTime(FormatBudgetBound(t)) == t
  {
    hide Laid, DaysBeforeYear, DaysBeforeMonth, IsTimestamp, ReadTime, Stamp, DigitsValue, Pow10, DateOf, Pad;
    DayInRange(t);
    var second := t / SECOND;
    var date, clock := DateOf(second / 86_400), second % 86_400;
    StampLaid(second);
    StampLength(second);
    FieldsMakeSecond(second);
    NineDigits(t % SECOND);
    var u := Pad(t % SECOND, 9);
    assert "." + u + "Z" == "." + (u + "Z");
    ReadsLaid(Stamp(second), "." + u + "Z", u, second, t % SECOND, date, clock / 3600, clock / 60 % 60, clock % 60);
    assert t == second * SECOND + t % SECOND;
  }

  lemma StampLength(second: nat)
    requires second / 86_400 < DAY_LIMIT
    ensures |Stamp(second)| == 19
  {
    hide DaysBeforeYear, DaysBeforeMonth, DigitsValue, DateOf, Stamp;
    StampLaid(second);
  }

  lemma NineDigits(n: nat)
    requires n < SECOND
    ensures DigitsValue(Pad(n, 9)) * Pow10(0) == n
  {
    hide Pad;
    PadValue(n, 9);
    Pow10Nine();
    SmallMod(n);
  }

  /** The UTC day of an instant is the day whose date its timestamp shows. */
  lemma DayIsDate(t: nat)
    requires InRange(t)
    ensures DayOf(t) == t / SECOND / 86_400
    ensures var s, date := FormatTime(t), DateOf(DayOf(t));
            |s| >= 20 && Field(s, 0, 4, date.year) && Field(s, 5, 7, date.month) && Field(s, 8, 10, date.day)
  {
    hide Field, DateText, ClockText, DateHolds, FractionDigits;
    DayInRange(t);
    var day := t / SECOND / 86_400;
    assert DayOf(t) == day;
    var date := DateOf(day);
    DateLaid(day);
    var rest := "T" + ClockText(t / SECOND % 86_400);
    ClockLaid(t / SECOND % 86_400);
    FieldPrefix(DateText(day), rest, 0, 4, date.year);
    FieldPrefix(DateText(day), rest, 5, 7, date.month);
    FieldPrefix(DateText(day), rest, 8, 10, date.day);
    FieldPrefix(DateText(day) + rest, FractionTail(t), 0, 4, date.year);
    FieldPrefix(DateText(day) + rest, FractionTail(t), 5, 7, date.month);
    FieldPrefix(DateText(day) + rest, FractionTail(t), 8, 10, date.day);
  }
}
