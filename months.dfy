/**
 * Calendar months as the payroll screens use them: the selected month, the
 * `addMonths`/`subMonths` step of the arrow buttons and the `"yyyy-MM"`
 * text that the "next month" guard compares as a string.
 */
module Months {
  import Text

  /** A calendar month; `month` runs from 1 to 12. */
  datatype YearMonth = YearMonth(year: int, month: int)

  predicate Valid(ym: YearMonth) {
    1 <= ym.month <= 12
  }

  /** `addMonths(selectedMonth, 1)`. */
  function Next(ym: YearMonth): (r: YearMonth)
    requires Valid(ym)
    ensures Valid(r)
  {
    if ym.month == 12 then YearMonth(ym.year + 1, 1) else YearMonth(ym.year, ym.month + 1)
  }

  /** `subMonths(selectedMonth, 1)`. */
  function Prev(ym: YearMonth): (r: YearMonth)
    requires Valid(ym)
    ensures Valid(r)
  {
    if ym.month == 1 then YearMonth(ym.year - 1, 12) else YearMonth(ym.year, ym.month - 1)
  }

  /** Months in calendar order. */
  predicate Before(a: YearMonth, b: YearMonth) {
    a.year < b.year || (a.year == b.year && a.month < b.month)
  }

  /** The arrows undo each other, and each moves exactly one month along the calendar. */
  lemma NextPrevInverse(ym: YearMonth)
    requires Valid(ym)
    ensures Prev(Next(ym)) == ym && Next(Prev(ym)) == ym
    ensures Before(ym, Next(ym)) && Before(Prev(ym), ym)
    ensures forall m: YearMonth :: Valid(m) ==> !(Before(ym, m) && Before(m, Next(ym)))
  {
  }

  // ---- the "yyyy-MM" text ----

  function Pow10(w: nat): (r: nat)
    ensures r >= 1
  {
    if w == 0 then 1 else 10 * Pow10(w - 1)
  }

  function Digit(d: nat): (c: char)
    requires d < 10
    ensures Text.IsDigit(c) && c as int - '0' as int == d
  {
    ('0' as int + d) as char
  }

  /** `n` written with exactly `w` digits, with leading zeros. */
  function Padded(n: nat, w: nat): (r: string)
    requires n < Pow10(w)
    ensures |r| == w
    ensures forall k :: 0 <= k < |r| ==> Text.IsDigit(r[k])
  {
    if w == 0 then "" else Padded(n / 10, w - 1) + [Digit(n % 10)]
  }

  /** The padded numeral reads back as the number. */
  lemma {:induction false} PaddedValue(n: nat, w: nat)
    requires n < Pow10(w)
    ensures Text.DigitsValue(Padded(n, w)) == n
    decreases w
  {
    if w > 0 {
      PaddedValue(n / 10, w - 1);
      var r := Padded(n, w);
      assert r[..|r| - 1] == Padded(n / 10, w - 1);
    }
  }

  /** `format(month, "yyyy-MM")`, for the years a four-digit field holds. */
  function IsoText(ym: YearMonth): (r: string)
    requires Valid(ym) && 0 <= ym.year <= 9999
    ensures |r| == 7 && r[4] == '-'
  {
    Padded(ym.year, 4) + "-" + Padded(ym.month, 2)
  }

  /** The `<` of strings: code-unit order, a proper prefix first. */
  predicate StrLess(a: string, b: string) {
    if a == [] then b != []
    else if b == [] then false
    else if a[0] != b[0] then a[0] < b[0]
    else StrLess(a[1..], b[1..])
  }

  /** Comparing two texts with prefixes of the same length compares the prefixes first. */
  lemma {:induction false} StrLessAppend(a1: string, a2: string, b1: string, b2: string)
    requires |a1| == |b1|
    ensures StrLess(a1 + a2, b1 + b2) <==> StrLess(a1, b1) || (a1 == b1 && StrLess(a2, b2))
    decreases |a1|
  {
    if a1 != [] {
      assert (a1 + a2)[1..] == a1[1..] + a2;
      assert (b1 + b2)[1..] == b1[1..] + b2;
      StrLessAppend(a1[1..], a2, b1[1..], b2);
      if a1[0] == b1[0] && a1[1..] == b1[1..] {
        assert a1 == [a1[0]] + a1[1..];
        assert b1 == [b1[0]] + b1[1..];
      }
    } else {
      assert a1 + a2 == a2 && b1 + b2 == b2;
    }
  }

  /** Digit strings of one length compare as strings as their values do. */
  lemma {:induction false} DigitsOrder(x: string, y: string)
    requires |x| == |y|
    requires forall k :: 0 <= k < |x| ==> Text.IsDigit(x[k])
    requires forall k :: 0 <= k < |y| ==> Text.IsDigit(y[k])
    ensures StrLess(x, y) <==> Text.DigitsValue(x) < Text.DigitsValue(y)
    ensures x == y <==> Text.DigitsValue(x) == Text.DigitsValue(y)
    decreases |x|
  {
    if x != [] {
      var n := |x| - 1;
      var x', y' := x[..n], y[..n];
      assert x == x' + [x[n]] && y == y' + [y[n]];
      assert Text.IsDigit(x[n]) && Text.IsDigit(y[n]);
      DigitsOrder(x', y');
      StrLessAppend(x', [x[n]], y', [y[n]]);
    }
  }

  /** Padded numerals of one width compare as strings as the numbers do. */
  lemma PaddedOrder(a: nat, b: nat, w: nat)
    requires a < Pow10(w) && b < Pow10(w)
    ensures StrLess(Padded(a, w), Padded(b, w)) <==> a < b
    ensures Padded(a, w) == Padded(b, w) <==> a == b
  {
    PaddedValue(a, w);
    PaddedValue(b, w);
    DigitsOrder(Padded(a, w), Padded(b, w));
  }

  /**
   * The "next month" guard compares `"yyyy-MM"` strings; for four-digit
   * years this is the calendar order of the months.
   */
  lemma IsoTextOrder(a: YearMonth, b: YearMonth)
    requires Valid(a) && 0 <= a.year <= 9999
    requires Valid(b) && 0 <= b.year <= 9999
    ensures StrLess(IsoText(a), IsoText(b)) <==> Before(a, b)
  {
    assert Pow10(4) == 10000 && Pow10(2) == 100;
    PaddedOrder(a.year, b.year, 4);
    PaddedOrder(a.month, b.month, 2);
    StrLessAppend(Padded(a.year, 4), "-" + Padded(a.month, 2), Padded(b.year, 4), "-" + Padded(b.month, 2));
    StrLessAppend("-", Padded(a.month, 2), "-", Padded(b.month, 2));
    assert Padded(a.year, 4) + "-" + Padded(a.month, 2) == Padded(a.year, 4) + ("-" + Padded(a.month, 2));
    assert Padded(b.year, 4) + "-" + Padded(b.month, 2) == Padded(b.year, 4) + ("-" + Padded(b.month, 2));
  }
}
