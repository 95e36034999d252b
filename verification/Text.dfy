/** Strings as the store sees them: the byte order SQLite uses for TEXT columns,
    fixed-width and decimal numerals, and the sums that SQL queries accumulate. */
module Text {

  /** The BINARY collation on (ASCII) text: lexicographic, a proper prefix sorts first. */
  predicate TextLess(a: string, b: string) {
    b != "" && (a == "" || a[0] < b[0] || (a[0] == b[0] && TextLess(a[1..], b[1..])))
  }

  predicate TextLeq(a: string, b: string) {
    !TextLess(b, a)
  }

  lemma {:induction false} TextLessIrreflexive(a: string)
    ensures !TextLess(a, a)
  {
    if a != "" {
      TextLessIrreflexive(a[1..]);
    }
  }

  lemma {:induction false} TextLessTransitive(a: string, b: string, c: string)
    requires TextLess(a, b) && TextLess(b, c)
    ensures TextLess(a, c)
  {
    if a != "" && a[0] == b[0] == c[0] {
      TextLessTransitive(a[1..], b[1..], c[1..]);
    }
  }

  lemma {:induction false} TextLessTotal(a: string, b: string)
    ensures TextLess(a, b) || a == b || TextLess(b, a)
  {
    if a != "" && b != "" && a[0] == b[0] {
      TextLessTotal(a[1..], b[1..]);
      assert a == [a[0]] + a[1..] && b == [b[0]] + b[1..];
    }
  }

  /** A common prefix does not decide the order. */
  lemma {:induction false} TextLessCommonPrefix(p: string, a: string, b: string)
    ensures TextLess(p + a, p + b) == TextLess(a, b)
  {
    if p == "" {
      assert p + a == a && p + b == b;
    } else {
      assert (p + a)[1..] == p[1..] + a && (p + b)[1..] == p[1..] + b;
      TextLessCommonPrefix(p[1..], a, b);
    }
  }

  /** When neither of two strings is a prefix of the other, nothing appended to them matters. */
  lemma {:induction false} TextLessIgnoresTails(a: string, b: string, x: string, y: string)
    requires !(a <= b) && !(b <= a)
    ensures TextLess(a + x, b + y) == TextLess(a, b)
  {
    if a[0] == b[0] {
      assert (a + x)[1..] == a[1..] + x && (b + y)[1..] == b[1..] + y;
      assert a == [a[0]] + a[1..] && b == [b[0]] + b[1..];
      TextLessIgnoresTails(a[1..], b[1..], x, y);
    }
  }

  lemma TextLessSameLength(a: string, b: string, x: string, y: string)
    requires |a| == |b| && TextLess(a, b)
    ensures TextLess(a + x, b + y)
  {
    TextLessIrreflexive(a);
    assert (a <= b || b <= a) ==> a == b;
    TextLessIgnoresTails(a, b, x, y);
  }

  // ---- Numerals ----

  function Digit(n: nat): (c: char)
    requires n < 10
    ensures '0' <= c <= '9' && c as int == '0' as int + n
  {
    ('0' as int + n) as char
  }

  predicate IsDigits(s: string) {
    forall i :: 0 <= i < |s| ==> '0' <= s[i] <= '9'
  }

  function Pow10(w: nat): (p: nat)
    ensures p > 0
  {
    if w == 0 then 1 else 10 * Pow10(w - 1)
  }

  /** The numeral of n, zero-padded to w digits (higher digits are dropped). */
  function Pad(n: nat, w: nat): (s: string)
    ensures |s| == w && IsDigits(s)
  {
    if w == 0 then "" else Pad(n / 10, w - 1) + [Digit(n % 10)]
  }

  lemma {:induction false} PadOrder(n: nat, m: nat, w: nat)
    requires n < m < Pow10(w)
    ensures TextLess(Pad(n, w), Pad(m, w))
  {
    if n / 10 < m / 10 {
      PadOrder(n / 10, m / 10, w - 1);
      TextLessSameLength(Pad(n / 10, w - 1), Pad(m / 10, w - 1), [Digit(n % 10)], [Digit(m % 10)]);
    } else {
      assert n / 10 == m / 10;
      TextLessCommonPrefix(Pad(n / 10, w - 1), [Digit(n % 10)], [Digit(m % 10)]);
    }
  }

  /** The decimal numeral of n without leading zeros, as big.Int.String prints it. */
  function Decimal(n: nat): (s: string)
    ensures |s| > 0 && IsDigits(s)
  {
    if n < 10 then [Digit(n)] else Decimal(n / 10) + [Digit(n % 10)]
  }

  /** The number that a string of digits denotes. */
  function DigitsValue(s: string): nat
    requires IsDigits(s)
  {
    if s == "" then 0 else 10 * DigitsValue(s[..|s| - 1]) + (s[|s| - 1] as int - '0' as int)
  }

  lemma {:induction false} PadValue(n: nat, w: nat)
    ensures DigitsValue(Pad(n, w)) == n % Pow10(w)
  {
    if w > 0 {
      PadValue(n / 10, w - 1);
      DecimalStep(n, Pow10(w - 1));
    }
  }

  lemma DecimalStep(n: nat, p: nat)
    requires p > 0
    ensures n % (10 * p) == 10 * (n / 10 % p) + n % 10
  {
    var q, r := n / 10 / p, n / 10 % p;
    var d := 10 * r + n % 10;
    assert n == q * (10 * p) + d by {
      assert n / 10 == q * p + r;
      assert 10 * (q * p) == q * (10 * p);
    }
    var m := 10 * p;
    assert d < m;
    assert n == (n / m) * m + n % m;
    assert (n / m - q) * m == d - n % m && (q - n / m) * m == n % m - d;
    AtLeastOne(n / m - q, m);
    AtLeastOne(q - n / m, m);
  }

  /** Zeros behind the digits shift the number. */
  lemma {:induction false} TrailingZeros(u: string, zeros: string)
    requires IsDigits(u) && forall i :: 0 <= i < |zeros| ==> zeros[i] == '0'
    ensures IsDigits(u + zeros) && DigitsValue(u + zeros) == DigitsValue(u) * Pow10(|zeros|)
  {
    if zeros == "" {
      assert u + zeros == u;
    } else {
      var init := zeros[..|zeros| - 1];
      assert (u + zeros)[..|u + zeros| - 1] == u + init;
      TrailingZeros(u, init);
      assert 10 * (DigitsValue(u) * Pow10(|init|)) == DigitsValue(u) * (10 * Pow10(|init|));
    }
  }

  // ---- White space ----

  /** unicode.IsSpace. */
  predicate IsSpace(c: char) {
    || '\U{9}' <= c <= '\U{D}' || c == ' ' || c == '\U{85}' || c == '\U{A0}' || c == '\U{1680}'
    || '\U{2000}' <= c <= '\U{200A}' || c == '\U{2028}' || c == '\U{2029}' || c == '\U{202F}'
    || c == '\U{205F}' || c == '\U{3000}'
  }

  function TrimLeft(s: string): string {
    if s != "" && IsSpace(s[0]) then TrimLeft(s[1..]) else s
  }

  function TrimRight(s: string): string {
    if s != "" && IsSpace(s[|s| - 1]) then TrimRight(s[..|s| - 1]) else s
  }

  /** strings.TrimSpace. */
  function Trim(s: string): string {
    TrimRight(TrimLeft(s))
  }

  predicate IsTrimmed(s: string) {
    s != "" ==> !IsSpace(s[0]) && !IsSpace(s[|s| - 1])
  }

  lemma {:induction false} TrimRightFacts(s: string)
    requires s != "" ==> !IsSpace(s[0])
    ensures IsTrimmed(TrimRight(s))
  {
    if s != "" && IsSpace(s[|s| - 1]) {
      TrimRightFacts(s[..|s| - 1]);
    }
  }

  lemma {:induction false} TrimLeftFacts(s: string)
    ensures TrimLeft(s) != "" ==> !IsSpace(TrimLeft(s)[0])
  {
    if s != "" && IsSpace(s[0]) {
      TrimLeftFacts(s[1..]);
    }
  }

  /** Trimming leaves no outer white space, and only text without any is left alone. */
  lemma TrimExact(s: string)
    ensures IsTrimmed(Trim(s))
    ensures Trim(s) == s <==> IsTrimmed(s)
  {
    TrimLeftFacts(s);
    TrimRightFacts(TrimLeft(s));
  }

  /** A positive multiple of m is at least m. */
  lemma AtLeastOne(x: int, m: nat)
    ensures x >= 1 ==> x * m >= m
  {
    if x >= 1 {
      assert x * m == (x - 1) * m + m;
    }
  }

  // ---- Sums over table columns ----

  function Sum(xs: seq<int>): int {
    if xs == [] then 0 else Sum(xs[..|xs| - 1]) + xs[|xs| - 1]
  }

  lemma SumAppend(xs: seq<int>, x: int)
    ensures Sum(xs + [x]) == Sum(xs) + x
  {
    assert (xs + [x])[..|xs|] == xs;
  }

  lemma {:induction false} SumMonotone(xs: seq<int>, ys: seq<int>)
    requires |xs| == |ys| && forall i :: 0 <= i < |xs| ==> xs[i] <= ys[i]
    ensures Sum(xs) <= Sum(ys)
  {
    if xs != [] {
      SumMonotone(xs[..|xs| - 1], ys[..|ys| - 1]);
    }
  }

  lemma {:induction false} SumUpdate(xs: seq<int>, i: nat, x: int)
    requires i < |xs|
    ensures Sum(xs[i := x]) == Sum(xs) - xs[i] + x
  {
    var n := |xs| - 1;
    if i == n {
      assert xs[i := x][..n] == xs[..n];
    } else {
      assert xs[i := x][..n] == xs[..n][i := x];
      SumUpdate(xs[..n], i, x);
    }
  }

  lemma {:induction false} SumNonNegative(xs: seq<int>)
    requires forall i :: 0 <= i < |xs| ==> xs[i] >= 0
    ensures Sum(xs) >= 0
  {
    if xs != [] {
      SumNonNegative(xs[..|xs| - 1]);
    }
  }

  lemma {:induction false} SumZeros(xs: seq<int>)
    requires forall i :: 0 <= i < |xs| ==> xs[i] == 0
    ensures Sum(xs) == 0
  {
    if xs != [] {
      SumZeros(xs[..|xs| - 1]);
    }
  }

  /** Adding one at each of `at` distinct places raises the sum by |at|. */
  lemma {:induction false} SumIncrements(xs: seq<int>, ys: seq<int>, at: seq<nat>)
    requires |xs| == |ys|
    requires Distinct(at) && forall k :: 0 <= k < |at| ==> at[k] < |xs|
    requires forall i :: 0 <= i < |xs| ==> ys[i] == xs[i] + if i in at then 1 else 0
    ensures Sum(ys) == Sum(xs) + |at|
    decreases |at|
  {
    if at == [] {
      assert xs == ys;
    } else {
      var p := at[0];
      var zs := ys[p := xs[p]];
      forall i | 0 <= i < |xs|
        ensures zs[i] == xs[i] + if i in at[1..] then 1 else 0
      {
        assert at == [p] + at[1..];
      }
      SumIncrements(xs, zs, at[1..]);
      SumUpdate(ys, p, xs[p]);
    }
  }

  predicate Distinct(xs: seq<nat>) {
    forall i, j :: 0 <= i < j < |xs| ==> xs[i] != xs[j]
  }
}
