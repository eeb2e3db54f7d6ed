/**
 * Calendar months as the seeding helpers walk them: a `date` with its day set to 1,
 * stepped back one month at a time with `replace(year=..., month=...)`, and printed
 * with `strftime("%Y-%m")` or `strftime("%Y-%m-01")`.
 */
module Calendar {
  import opened Base
  import opened Sorting

  /** A `date` whose day is 1. */
  datatype YearMonth = YearMonth(year: int, month: int)

  /** The range of Python's `date`: years 1 to 9999, months 1 to 12. */
  predicate Valid(m: YearMonth) {
    1 <= m.year <= 9999 && 1 <= m.month <= 12
  }

  /** Months elapsed since January of year 1. */
  function Ordinal(m: YearMonth): int {
    (m.year - 1) * 12 + (m.month - 1)
  }

  /** The month with a given ordinal. */
  function FromOrdinal(n: nat): (m: YearMonth)
    requires n < 9999 * 12
    ensures Valid(m) && Ordinal(m) == n
  {
    YearMonth(n / 12 + 1, n % 12 + 1)
  }

  /** Ordinals number the valid months one to one. */
  lemma OrdinalInjective(a: YearMonth, b: YearMonth)
    requires Valid(a) && Valid(b) && Ordinal(a) == Ordinal(b)
    ensures a == b
  {
    var n := Ordinal(a);
    assert n == (a.year - 1) * 12 + (a.month - 1) && 0 <= a.month - 1 < 12;
    assert n / 12 == a.year - 1 && n % 12 == a.month - 1;
    assert n == (b.year - 1) * 12 + (b.month - 1) && 0 <= b.month - 1 < 12;
    assert n / 12 == b.year - 1 && n % 12 == b.month - 1;
  }

  lemma OrdinalBounds(m: YearMonth)
    requires Valid(m)
    ensures 0 <= Ordinal(m) < 9999 * 12
  {
  }

  /** `replace` rejects year 0. */
  const YearOutOfRange: string := "year 0 is out of range"

  /**
   * One step of the month walk: `month - 1 or 12`, and the year before when that gives
   * December. From January of year 1 the `replace` raises.
   */
  function Prev(m: YearMonth): (r: Result<YearMonth>)
    requires Valid(m)
    ensures r.Ok? <==> Ordinal(m) > 0
    ensures r.Ok? ==> Valid(r.value) && Ordinal(r.value) == Ordinal(m) - 1
    ensures m.month == 1 && m.year > 1 ==> r == Ok(YearMonth(m.year - 1, 12))
    ensures r.Err? ==> r.error == YearOutOfRange
  {
    var pm := if m.month - 1 == 0 then 12 else m.month - 1;
    var py := if pm == 12 then m.year - 1 else m.year;
    if py < 1 then Err(YearOutOfRange) else Ok(YearMonth(py, pm))
  }

  /** The month `j` months before `m`. */
  function Back(m: YearMonth, j: nat): (r: YearMonth)
    requires Valid(m) && j <= Ordinal(m)
    ensures Valid(r) && Ordinal(r) == Ordinal(m) - j
  {
    OrdinalBounds(m);
    FromOrdinal(Ordinal(m) - j)
  }

  /** The `count` months that end with `today`, oldest first. */
  function MonthsEnding(today: YearMonth, count: nat): (ms: seq<YearMonth>)
    requires Valid(today) && count <= Ordinal(today) + 1
    ensures |ms| == count
    ensures forall k :: 0 <= k < count ==> Valid(ms[k]) && Ordinal(ms[k]) == Ordinal(today) - (count - 1 - k)
  {
    seq(count, k requires 0 <= k < count => Back(today, count - 1 - k))
  }

  /**
   * The months ending with `today` are valid, the last one is `today`, and each one is the
   * month before the next (January preceded by December of the year before).
   */
  lemma MonthsEndingSpec(today: YearMonth, count: nat)
    requires Valid(today) && count <= Ordinal(today) + 1
    ensures var ms := MonthsEnding(today, count);
      (forall k :: 0 <= k < count ==> Valid(ms[k]))
      && (count > 0 ==> ms[count - 1] == today)
      && (forall k :: 0 <= k < count - 1 ==> Prev(ms[k + 1]) == Ok(ms[k]))
      && (forall j, k :: 0 <= j < k < count ==> Ordinal(ms[j]) < Ordinal(ms[k]))
  {
    var ms := MonthsEnding(today, count);
    if count > 0 {
      OrdinalInjective(ms[count - 1], today);
    }
    forall k | 0 <= k < count - 1 ensures Prev(ms[k + 1]) == Ok(ms[k]) {
      OrdinalInjective(Prev(ms[k + 1]).value, ms[k]);
    }
  }

  // ---------------------------------------------------------------------------------
  // strftime

  /** `%m`: the month in two digits. */
  function Pad2(n: nat): (s: string)
    requires n < 100
    ensures |s| == 2
  {
    if n < 10 then "0" + NatToString(n)
    else
      assert NatToString(n) == NatToString(n / 10) + [DigitChar(n % 10)];
      NatToString(n)
  }

  /** `strftime("%Y-%m")`. The C library prints `%Y` without padding below year 1000. */
  function MonthLabel(m: YearMonth): string
    requires Valid(m)
  {
    NatToString(m.year) + "-" + Pad2(m.month)
  }

  /** `strftime("%Y-%m-01")`. */
  function DayLabel(m: YearMonth): string
    requires Valid(m)
  {
    MonthLabel(m) + "-01"
  }

  lemma Pad2Injective(a: nat, b: nat)
    requires a < 100 && b < 100
    ensures Pad2(a) == Pad2(b) ==> a == b
  {
    if a < 10 && b < 10 {
      assert Pad2(a)[1..] == NatToString(a) && Pad2(b)[1..] == NatToString(b);
      NatToStringInjective(a, b);
    } else if a >= 10 && b >= 10 {
      NatToStringInjective(a, b);
    } else if a < 10 {
      assert Pad2(a)[0] == '0';
      assert NatToString(b) == NatToString(b / 10) + [DigitChar(b % 10)];
      assert Pad2(b)[0] == DigitChar(b / 10);
    } else {
      assert Pad2(b)[0] == '0';
      assert NatToString(a) == NatToString(a / 10) + [DigitChar(a % 10)];
      assert Pad2(a)[0] == DigitChar(a / 10);
    }
  }

  /** Distinct months print distinct labels, so the labels can key a table. */
  lemma MonthLabelInjective(a: YearMonth, b: YearMonth)
    requires Valid(a) && Valid(b)
    ensures MonthLabel(a) == MonthLabel(b) ==> a == b
  {
    if MonthLabel(a) == MonthLabel(b) {
      var s := MonthLabel(a);
      var ya, yb := NatToString(a.year), NatToString(b.year);
      assert |ya| == |s| - 3 == |yb|;
      assert s[..|ya|] == ya && s[..|yb|] == yb;
      NatToStringInjective(a.year, b.year);
      assert s[|ya| + 1..] == Pad2(a.month) && s[|yb| + 1..] == Pad2(b.month);
      Pad2Injective(a.month, b.month);
    }
  }

  lemma DayLabelInjective(a: YearMonth, b: YearMonth)
    requires Valid(a) && Valid(b)
    ensures DayLabel(a) == DayLabel(b) ==> a == b
  {
    if DayLabel(a) == DayLabel(b) {
      assert MonthLabel(a) == DayLabel(a)[..|DayLabel(a)| - 3];
      assert MonthLabel(b) == DayLabel(b)[..|DayLabel(b)| - 3];
      MonthLabelInjective(a, b);
    }
  }

  // ---------------------------------------------------------------------------------
  // Label order

  /** Strictly before in code-point order. */
  predicate StrLt(a: string, b: string) {
    StrLe(a, b) && a != b
  }

  /** Equal-length prefixes in strict order decide the order of any continuations. */
  lemma {:induction false} StrLtPrefix(p: string, q: string, t: string, u: string)
    requires |p| == |q| && StrLt(p, q)
    ensures StrLt(p + t, q + u)
  {
    assert p != [] && q != [];
    assert (p + t)[0] == p[0] && (q + u)[0] == q[0];
    if p[0] == q[0] {
      assert (p + t)[1..] == p[1..] + t && (q + u)[1..] == q[1..] + u;
      StrLtPrefix(p[1..], q[1..], t, u);
    }
  }

  /** A shared prefix leaves the order to what follows it. */
  lemma {:induction false} StrLtShared(p: string, t: string, u: string)
    requires StrLt(t, u)
    ensures StrLt(p + t, p + u)
  {
    if p == [] {
      assert p + t == t && p + u == u;
    } else {
      assert (p + t)[0] == p[0] == (p + u)[0];
      assert (p + t)[1..] == p[1..] + t && (p + u)[1..] == p[1..] + u;
      StrLtShared(p[1..], t, u);
    }
  }

  /** Numbers printed with the same number of digits compare like the numbers. */
  lemma {:induction false} DigitsOrder(x: nat, y: nat)
    requires |NatToString(x)| == |NatToString(y)| && x < y
    ensures StrLt(NatToString(x), NatToString(y))
  {
    if y < 10 {
      assert x < 10;
      assert NatToString(x)[0] == DigitChar(x) && NatToString(y)[0] == DigitChar(y);
    } else {
      assert x >= 10;
      var dx, dy := [DigitChar(x % 10)], [DigitChar(y % 10)];
      assert NatToString(x) == NatToString(x / 10) + dx && NatToString(y) == NatToString(y / 10) + dy;
      if x / 10 < y / 10 {
        DigitsOrder(x / 10, y / 10);
        StrLtPrefix(NatToString(x / 10), NatToString(y / 10), dx, dy);
      } else {
        assert x % 10 < y % 10;
        assert StrLt(dx, dy) by {
          assert dx[0] < dy[0];
        }
        StrLtShared(NatToString(x / 10), dx, dy);
      }
    }
  }

  lemma FourDigits(y: nat)
    requires 1000 <= y <= 9999
    ensures |NatToString(y)| == 4
  {
    assert NatToString(y) == NatToString(y / 10) + [DigitChar(y % 10)];
    assert NatToString(y / 10) == NatToString(y / 100) + [DigitChar(y / 10 % 10)];
    assert NatToString(y / 100) == NatToString(y / 1000) + [DigitChar(y / 100 % 10)];
  }

  lemma Pad2Order(a: nat, b: nat)
    requires 1 <= a < b <= 12
    ensures StrLt(Pad2(a), Pad2(b))
  {
    if b < 10 {
      DigitsOrder(a, b);
      StrLtShared("0", NatToString(a), NatToString(b));
    } else if a >= 10 {
      assert NatToString(a) == NatToString(a / 10) + [DigitChar(a % 10)];
      assert NatToString(b) == NatToString(b / 10) + [DigitChar(b % 10)];
      DigitsOrder(a, b);
    } else {
      assert Pad2(a)[0] == '0';
      assert NatToString(b) == NatToString(b / 10) + [DigitChar(b % 10)];
      assert Pad2(b)[0] == '1';
    }
  }

  /**
   * For four-digit years, a later month has a later `"%Y-%m"` label, so ascending months
   * print as ascending text.
   */
  lemma MonthLabelOrder(a: YearMonth, b: YearMonth)
    requires Valid(a) && Valid(b) && 1000 <= a.year && 1000 <= b.year
    requires Ordinal(a) < Ordinal(b)
    ensures StrLt(MonthLabel(a), MonthLabel(b))
    ensures |MonthLabel(a)| == 7 == |MonthLabel(b)|
  {
    FourDigits(a.year);
    FourDigits(b.year);
    if a.year < b.year {
      DigitsOrder(a.year, b.year);
      StrLtPrefix(NatToString(a.year), NatToString(b.year), "-" + Pad2(a.month), "-" + Pad2(b.month));
      assert MonthLabel(a) == NatToString(a.year) + ("-" + Pad2(a.month));
      assert MonthLabel(b) == NatToString(b.year) + ("-" + Pad2(b.month));
    } else {
      assert a.year == b.year && a.month < b.month;
      Pad2Order(a.month, b.month);
      StrLtShared(NatToString(a.year) + "-", Pad2(a.month), Pad2(b.month));
    }
  }

  lemma DayLabelOrder(a: YearMonth, b: YearMonth)
    requires Valid(a) && Valid(b) && 1000 <= a.year && 1000 <= b.year
    requires Ordinal(a) < Ordinal(b)
    ensures StrLt(DayLabel(a), DayLabel(b))
  {
    MonthLabelOrder(a, b);
    StrLtPrefix(MonthLabel(a), MonthLabel(b), "-01", "-01");
  }
}
