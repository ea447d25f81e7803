/**
 * Money formatting (components/ui/utils.tsx): `toFixed(2)` on an amount and
 * the ZIG format, which separates the integer digits of that text into
 * groups of three with spaces using the pattern `\B(?=(\d{3})+(?!\d))`.
 * Amounts are whole cents.
 */
module Format {
  import opened Text

  /** The two digits of `n` below 100, with a leading zero. */
  function TwoDigits(n: nat): (r: string)
    requires n < 100
    ensures |r| == 2 && IsDigit(r[0]) && IsDigit(r[1])
    ensures DigitsValue(r) == n
  {
    var r := [('0' as int + n / 10) as char, ('0' as int + n % 10) as char];
    assert r[..1] == [r[0]];
    assert r[..1][..0] == [];
    assert DigitsValue(r[..1]) == n / 10;
    r
  }

  /** The sign `toFixed` writes: a minus for a negative amount only. */
  function SignText(cents: int): string {
    if cents < 0 then "-" else ""
  }

  function Abs(x: int): nat {
    if x < 0 then -x else x
  }

  /**
   * `Number(amount).toFixed(2)` for an amount of `cents` hundredths: a minus
   * for a negative amount only, the whole units without leading zeros, a
   * point and exactly two decimals.
   */
  function ToFixed2(cents: int): (r: string)
    ensures |r| >= 4 && r[|r| - 3] == '.' && IsDigit(r[|r| - 2]) && IsDigit(r[|r| - 1])
    ensures forall k :: 0 <= k < |r| ==> IsDigit(r[k]) || k == |r| - 3 || (k == 0 && r[k] == '-')
    ensures r[0] == '-' <==> cents < 0
  {
    var whole := NatToString(Abs(cents) / 100);
    var r := SignText(cents) + whole + ("." + TwoDigits(Abs(cents) % 100));
    assert cents >= 0 ==> r[0] == whole[0];
    r
  }

  /** The digits of `ToFixed2` read back as the amount: units before the point, cents after it. */
  lemma ToFixed2Value(cents: int)
    ensures var r, start := ToFixed2(cents), if cents < 0 then 1 else 0;
      start <= |r| - 3 &&
      DigitsValue(r[start..|r| - 3]) * 100 + DigitsValue(r[|r| - 2..]) == Abs(cents)
  {
    var whole := NatToString(Abs(cents) / 100);
    var f := TwoDigits(Abs(cents) % 100);
    var r := ToFixed2(cents);
    var start := if cents < 0 then 1 else 0;
    assert r == SignText(cents) + whole + "." + f;
    assert r[start..|r| - 3] == whole;
    assert r[|r| - 2..] == f;
    NatToStringValue(Abs(cents) / 100);
  }

  // ---- the replace pattern, position by position ----

  /** `\w`: a letter, a digit or the underscore. */
  predicate IsWordChar(c: char) {
    ('a' <= c <= 'z') || ('A' <= c <= 'Z') || IsDigit(c) || c == '_'
  }

  /** The number of digits in a row starting at position `i`. */
  function DigitRun(s: string, i: nat): (r: nat)
    requires i <= |s|
    ensures r <= |s| - i
    ensures forall k :: i <= k < i + r ==> IsDigit(s[k])
    ensures i + r < |s| ==> !IsDigit(s[i + r])
    decreases |s| - i
  {
    if i < |s| && IsDigit(s[i]) then 1 + DigitRun(s, i + 1) else 0
  }

  /**
   * The pattern matches the empty text at position `i`: `\B` holds (the
   * characters on both sides are word characters, as `s[i]` must be a digit),
   * and a run of digits whose length is a positive multiple of three starts
   * at `i` and is not followed by another digit.
   */
  predicate MatchAt(s: string, i: nat)
    requires i <= |s|
  {
    0 < i && IsWordChar(s[i - 1]) && DigitRun(s, i) >= 3 && DigitRun(s, i) % 3 == 0
  }

  /** The global replace on positions `i` up to `hi`: a space goes before every match. */
  function Replaced(s: string, i: nat, hi: nat): (r: string)
    requires i <= hi <= |s|
    decreases hi - i
  {
    if i == hi then "" else (if MatchAt(s, i) then " " else "") + [s[i]] + Replaced(s, i + 1, hi)
  }

  /** `formatZIG`, for an amount in cents. */
  function FormatZig(cents: int): string {
    var s := ToFixed2(cents);
    "ZIG " + Replaced(s, 0, |s|)
  }

  // ---- the intended shape: groups of three from the right ----

  /** The integer digits grouped by three from the right, the first group holding one to three. */
  function Group(d: string): string
    decreases |d|
  {
    if |d| <= 3 then d else Group(d[..|d| - 3]) + " " + d[|d| - 3..]
  }

  /** The grouped digits without their spaces are the digits. */
  lemma {:induction false} GroupRemoveSpaces(d: string)
    requires ' ' !in d
    ensures RemoveSpaces(Group(d)) == d
    decreases |d|
  {
    if |d| <= 3 {
      RemoveSpacesNone(d);
    } else {
      var a, b := d[..|d| - 3], d[|d| - 3..];
      assert d == a + b;
      NotInParts(a, b, ' ');
      GroupRemoveSpaces(a);
      GroupSpaceAppend(Group(a), " ", b);
    }
  }

  /** A character absent from a concatenation is absent from both parts. */
  lemma NotInParts(a: string, b: string, c: char)
    requires c !in a + b
    ensures c !in a && c !in b
  {
    assert forall k :: 0 <= k < |a| ==> a[k] == (a + b)[k];
    assert forall k :: 0 <= k < |b| ==> b[k] == (a + b)[|a| + k];
  }

  /** Removing the spaces of `g + sp + b`, where `sp` is one space and `b` has none. */
  lemma GroupSpaceAppend(g: string, sp: string, b: string)
    requires sp == [' '] && ' ' !in b
    ensures RemoveSpaces(g + sp + b) == RemoveSpaces(g) + b
  {
    LoneSpace(sp);
    RemoveSpacesAppend(g, sp);
    RemoveSpacesAppend(g + sp, b);
    RemoveSpacesNone(b);
  }

  lemma LoneSpace(sp: string)
    requires sp == [' ']
    ensures RemoveSpaces(sp) == []
  {
    assert sp[1..] == [];
  }

  /** The digits `d` spaced position by position: a space before index `j > 0` when a multiple of three digits remain. */
  function Spaced(d: string, j: nat): string
    requires j <= |d|
    decreases |d| - j
  {
    if j == |d| then "" else (if 0 < j && (|d| - j) % 3 == 0 then " " else "") + [d[j]] + Spaced(d, j + 1)
  }

  lemma {:induction false} SpacedShort(d: string, j: nat)
    requires 1 <= j <= |d| && |d| - j < 3
    ensures Spaced(d, j) == d[j..]
    decreases |d| - j
  {
    if j < |d| {
      SpacedShort(d, j + 1);
    }
  }

  /** Appending three digits adds one space and the three digits. */
  lemma {:induction false} SpacedAppend(a: string, b: string, j: nat)
    requires |b| == 3 && 1 <= |a| && j <= |a|
    ensures Spaced(a + b, j) == Spaced(a, j) + " " + b
    decreases |a| - j
  {
    var d := a + b;
    if j == |a| {
      SpacedShort(d, |a| + 1);
      assert d[|a| + 1..] == b[1..];
      assert d[|a|] == b[0];
      assert |d| - j == 3;
      assert Spaced(d, j) == " " + [b[0]] + Spaced(d, j + 1);
      assert [b[0]] + b[1..] == b;
    } else {
      SpacedAppend(a, b, j + 1);
      var m := |a| - j;
      assert |d| - j == m + 3;
      assert (m + 3) % 3 == m % 3;
      assert d[j] == a[j];
      assert Spaced(d, j) == (if 0 < j && m % 3 == 0 then " " else "") + [a[j]] + Spaced(d, j + 1);
    }
  }

  /** The position-by-position spacing is the grouping by three. */
  lemma {:induction false} SpacedIsGroup(d: string)
    ensures Spaced(d, 0) == Group(d)
    decreases |d|
  {
    if |d| == 0 {
    } else if |d| <= 3 {
      SpacedShort(d, 1);
      assert Spaced(d, 0) == [d[0]] + d[1..];
    } else {
      var a, b := d[..|d| - 3], d[|d| - 3..];
      assert d == a + b;
      SpacedAppend(a, b, 0);
      SpacedIsGroup(a);
    }
  }

  /** `Replaced` over a range splits at any middle position. */
  lemma {:induction false} ReplacedSplit(s: string, lo: nat, mid: nat, hi: nat)
    requires lo <= mid <= hi <= |s|
    ensures Replaced(s, lo, hi) == Replaced(s, lo, mid) + Replaced(s, mid, hi)
    decreases mid - lo
  {
    if lo < mid {
      ReplacedSplit(s, lo + 1, mid, hi);
    }
  }

  /** Positions where no run of at least three digits starts are copied unchanged. */
  lemma {:induction false} ReplacedNoMatch(s: string, lo: nat, hi: nat)
    requires lo <= hi <= |s|
    requires forall k :: lo <= k < hi ==> !MatchAt(s, k)
    ensures Replaced(s, lo, hi) == s[lo..hi]
    decreases hi - lo
  {
    if lo < hi {
      assert !MatchAt(s, lo);
      ReplacedNoMatch(s, lo + 1, hi);
      assert s[lo..hi] == [s[lo]] + s[lo + 1..hi];
    }
  }

  /** Within the digits of `sign + d + rest`, the pattern matches exactly where `Spaced` inserts. */
  lemma {:induction false} ReplacedDigits(sign: string, d: string, rest: string, j: nat)
    requires sign == "" || sign == "-"
    requires forall k :: 0 <= k < |d| ==> IsDigit(d[k])
    requires rest != [] && !IsDigit(rest[0])
    requires j <= |d|
    ensures Replaced(sign + d + rest, |sign| + j, |sign| + |d|) == Spaced(d, j)
    decreases |d| - j
  {
    if j < |d| {
      var s, i, hi := sign + d + rest, |sign| + j, |sign| + |d|;
      MatchInDigits(sign, d, rest, j);
      ReplacedDigits(sign, d, rest, j + 1);
      assert Replaced(s, i, hi) == (if MatchAt(s, i) then " " else "") + [s[i]] + Replaced(s, i + 1, hi);
    }
  }

  /** At digit `j` of `sign + d + rest` the pattern matches exactly when `j > 0` and a multiple of three digits remain. */
  lemma MatchInDigits(sign: string, d: string, rest: string, j: nat)
    requires sign == "" || sign == "-"
    requires forall k :: 0 <= k < |d| ==> IsDigit(d[k])
    requires rest != [] && !IsDigit(rest[0])
    requires j < |d|
    ensures (sign + d + rest)[|sign| + j] == d[j]
    ensures MatchAt(sign + d + rest, |sign| + j) <==> 0 < j && (|d| - j) % 3 == 0
  {
    var s := sign + d + rest;
    var i := |sign| + j;
    RunInDigits(sign, d, rest, j);
    if j == 0 {
      assert i == 0 || s[i - 1] == '-';
    } else {
      assert s[i - 1] == d[j - 1];
    }
  }

  lemma {:induction false} RunInDigits(sign: string, d: string, rest: string, j: nat)
    requires forall k :: 0 <= k < |d| ==> IsDigit(d[k])
    requires rest != [] && !IsDigit(rest[0])
    requires j <= |d|
    ensures DigitRun(sign + d + rest, |sign| + j) == |d| - j
    decreases |d| - j
  {
    var s := sign + d + rest;
    if j < |d| {
      assert s[|sign| + j] == d[j];
      RunInDigits(sign, d, rest, j + 1);
    } else {
      assert s[|sign| + j] == rest[0];
    }
  }

  /** From the point on, fewer than three digits remain and nothing matches. */
  lemma NoMatchInDecimals(s: string, m: nat)
    requires m + 3 == |s| && s[m] == '.'
    ensures forall k :: m <= k < |s| ==> !MatchAt(s, k)
  {
    forall k | m <= k < |s|
      ensures !MatchAt(s, k)
    {
      if k == m {
        assert DigitRun(s, k) == 0;
      } else {
        assert DigitRun(s, k) < 3;
      }
    }
  }

  /** The sign in front is copied unchanged: no match can start at position 0. */
  lemma ReplacedSign(s: string, sign: string)
    requires sign == "" || sign == "-"
    requires |sign| <= |s| && s[..|sign|] == sign
    ensures Replaced(s, 0, |sign|) == sign
  {
    if sign == "-" {
      assert !MatchAt(s, 0);
      assert Replaced(s, 0, 1) == [s[0]] + Replaced(s, 1, 1);
    }
  }

  /** The point and the two decimals at the end are copied unchanged. */
  lemma ReplacedDecimals(s: string, m: nat)
    requires m + 3 == |s| && s[m] == '.'
    ensures Replaced(s, m, |s|) == s[m..]
  {
    NoMatchInDecimals(s, m);
    ReplacedNoMatch(s, m, |s|);
  }

  /** The replace on a signed numeral with two decimals groups its whole digits and nothing else. */
  lemma ReplacedNumeral(sign: string, d: string, f: string)
    requires sign == "" || sign == "-"
    requires forall k :: 0 <= k < |d| ==> IsDigit(d[k])
    requires |f| == 2
    ensures Replaced(sign + d + ("." + f), 0, |sign + d + ("." + f)|) == sign + Group(d) + ("." + f)
  {
    var rest := "." + f;
    var s := sign + d + rest;
    var m := |sign| + |d|;
    NumeralSlices(sign, d, rest);
    ReplacedSign(s, sign);
    ReplacedDigits(sign, d, rest, 0);
    SpacedIsGroup(d);
    ReplacedDecimals(s, m);
    ReplacedThree(s, |sign|, m);
  }

  lemma NumeralSlices(sign: string, d: string, rest: string)
    requires |rest| == 3 && rest[0] == '.'
    ensures (sign + d + rest)[..|sign|] == sign
    ensures (sign + d + rest)[|sign| + |d|..] == rest
    ensures (sign + d + rest)[|sign| + |d|] == '.'
    ensures |sign + d + rest| == |sign| + |d| + 3
  {
  }

  lemma ReplacedThree(s: string, lo: nat, mid: nat)
    requires lo <= mid <= |s|
    ensures Replaced(s, 0, |s|) == Replaced(s, 0, lo) + Replaced(s, lo, mid) + Replaced(s, mid, |s|)
  {
    ReplacedSplit(s, 0, lo, |s|);
    ReplacedSplit(s, lo, mid, |s|);
  }

  /**
   * The ZIG text is the prefix, the sign, the whole units grouped by three
   * from the right, the point and two decimals: the pattern never touches
   * the sign or the decimals.
   */
  lemma FormatZigShape(cents: int)
    ensures FormatZig(cents) ==
      "ZIG " + SignText(cents) + Group(NatToString(Abs(cents) / 100)) + ("." + TwoDigits(Abs(cents) % 100))
  {
    var sign, d, f := SignText(cents), NatToString(Abs(cents) / 100), TwoDigits(Abs(cents) % 100);
    assert ToFixed2(cents) == sign + d + ("." + f);
    ReplacedNumeral(sign, d, f);
  }

  /** Taking the spaces out of the ZIG text after its prefix gives back `toFixed(2)`. */
  lemma FormatZigRoundTrip(cents: int)
    ensures FormatZig(cents)[..4] == "ZIG "
    ensures RemoveSpaces(FormatZig(cents)[4..]) == ToFixed2(cents)
  {
    FormatZigShape(cents);
    var sign, d, f := SignText(cents), NatToString(Abs(cents) / 100), TwoDigits(Abs(cents) % 100);
    assert ' ' !in d;
    GroupRemoveSpaces(d);
    StripParts(FormatZig(cents), sign, Group(d), d, "." + f);
  }

  /** A prefixed text of three parts, of which only the middle one holds spaces, loses exactly those. */
  lemma StripParts(z: string, sign: string, g: string, d: string, tail: string)
    requires z == "ZIG " + sign + g + tail
    requires RemoveSpaces(g) == d
    requires ' ' !in sign && ' ' !in tail
    ensures z[..4] == "ZIG "
    ensures RemoveSpaces(z[4..]) == sign + d + tail
  {
    var x := sign + g;
    assert z[4..] == x + tail;
    RemoveSpacesAppend(x, tail);
    RemoveSpacesAppend(sign, g);
    RemoveSpacesNone(sign);
    RemoveSpacesNone(tail);
  }

  /** The ZIG text once its sign, grouped units and decimals are known. */
  lemma FormatZigOf(cents: int, n: nat, c: nat, sign: string, g: string, f: string, z: string)
    requires Abs(cents) / 100 == n && Abs(cents) % 100 == c < 100
    requires sign == SignText(cents) && g == Group(NatToString(n)) && f == TwoDigits(c)
    requires z == "ZIG " + sign + g + ("." + f)
    ensures FormatZig(cents) == z
  {
    FormatZigShape(cents);
  }

  lemma TwoDigitsOf(c: nat, f: string)
    requires c < 100 && |f| == 2 && f[0] == ('0' as int + c / 10) as char && f[1] == ('0' as int + c % 10) as char
    ensures TwoDigits(c) == f
  {
  }

  lemma FormatZigExample1(cents: int)
    requires cents == 99900
    ensures FormatZig(cents) == "ZIG 999.00"
  {
    var n, c := Abs(cents) / 100, Abs(cents) % 100;
    assert n == 999 && c == 0;
    assert NatToString(999) == "999";
    TwoDigitsOf(c, "00");
    FormatZigOf(cents, n, c, "", "999", "00", "ZIG 999.00");
  }

  lemma Numeral1234567(n: nat)
    requires n == 1234567
    ensures NatToString(n) == "1234567"
  {
    assert NatToString(1234) == "1234";
    assert NatToString(12345) == "12345";
    assert NatToString(123456) == "123456";
  }

  lemma Numeral1234(n: nat)
    requires n == 1234
    ensures NatToString(n) == "1234"
  {
  }

  lemma Group1234(d: string)
    requires d == "1234"
    ensures Group(d) == "1 234"
  {
    assert Group(d) == Group(d[..1]) + " " + d[1..];
  }

  lemma Group1234567(d: string)
    requires d == "1234567"
    ensures Group(d) == "1 234 567"
  {
    var a := d[..4];
    assert a == "1234";
    assert Group(a) == Group(a[..1]) + " " + a[1..];
    assert Group(d) == Group(a) + " " + d[4..];
  }

  lemma FormatZigExample2(cents: int)
    requires cents == 123456750
    ensures FormatZig(cents) == "ZIG 1 234 567.50"
  {
    var n, c := Abs(cents) / 100, Abs(cents) % 100;
    SplitCents(cents, 1234567, 50);
    Numeral1234567(n);
    Group1234567(NatToString(n));
    TwoDigitsOf(c, "50");
    FormatZigOf(cents, n, c, "", "1 234 567", "50", "ZIG 1 234 567.50");
  }

  lemma SplitCents(cents: int, n: nat, c: nat)
    requires Abs(cents) == n * 100 + c && c < 100
    ensures Abs(cents) / 100 == n && Abs(cents) % 100 == c
  {
  }

  lemma FormatZigExample3(cents: int)
    requires cents == -123400
    ensures FormatZig(cents) == "ZIG -1 234.00"
  {
    var n, c := Abs(cents) / 100, Abs(cents) % 100;
    SplitCents(cents, 1234, 0);
    Numeral1234(n);
    Group1234(NatToString(n));
    TwoDigitsOf(c, "00");
    FormatZigOf(cents, n, c, "-", "1 234", "00", "ZIG -1 234.00");
  }
}
