/**
 * The payslip dialog of an employee's salary (src/components/Payroll/PayslipModal.tsx):
 * one row per benefits entry and one per deductions entry, each labelled by
 * its key spelt out (a space before every capital letter, then trimmed),
 * with the USD value and its ZIG value at the salary's exchange rate.
 * Amounts are exact reals; `toFixed` is not part of this model.
 */
module PayslipLabels {
  import Text

  predicate IsUpper(c: char) {
    'A' <= c <= 'Z'
  }

  /** What `replace(/([A-Z])/g, " $1")` makes of one character. */
  function Spread(c: char): (r: string)
    ensures IsUpper(c) ==> r == [' ', c]
    ensures !IsUpper(c) ==> r == [c]
  {
    if IsUpper(c) then [' ', c] else [c]
  }

  /** `s.replace(/([A-Z])/g, " $1")`: a space goes before every capital letter A to Z. */
  function SpaceBeforeUpper(s: string): (r: string)
    ensures |r| >= |s|
    decreases |s|
  {
    if s == [] then "" else Spread(s[0]) + SpaceBeforeUpper(s[1..])
  }

  lemma {:induction false} SpaceBeforeUpperAppend(a: string, b: string)
    ensures SpaceBeforeUpper(a + b) == SpaceBeforeUpper(a) + SpaceBeforeUpper(b)
    decreases |a|
  {
    if a != [] {
      assert (a + b)[0] == a[0];
      assert (a + b)[1..] == a[1..] + b;
      SpaceBeforeUpperAppend(a[1..], b);
      assert SpaceBeforeUpper(a + b) == Spread(a[0]) + (SpaceBeforeUpper(a[1..]) + SpaceBeforeUpper(b));
    } else {
      assert a + b == b;
    }
  }

  /** Taking the spaces out again gives what taking them out of the key gives: only spaces were added. */
  lemma {:induction false} SpaceBeforeUpperOnlyAddsSpaces(s: string)
    ensures Text.RemoveSpaces(SpaceBeforeUpper(s)) == Text.RemoveSpaces(s)
    decreases |s|
  {
    if s != [] {
      SpaceBeforeUpperOnlyAddsSpaces(s[1..]);
      Text.RemoveSpacesAppend(Spread(s[0]), SpaceBeforeUpper(s[1..]));
      Text.RemoveSpacesAppend([s[0]], s[1..]);
      assert s == [s[0]] + s[1..];
      if IsUpper(s[0]) {
        Text.RemoveSpacesAppend([' '], [s[0]]);
        assert [' ', s[0]] == [' '] + [s[0]];
      }
    }
  }

  /** No capital letter A to Z occurs in `s`. */
  predicate NoUpper(s: string)
    decreases |s|
  {
    s == [] || (!IsUpper(s[0]) && NoUpper(s[1..]))
  }

  /** The recursive test agrees with the test on every position. */
  lemma {:induction false} NoUpperIff(s: string)
    ensures NoUpper(s) <==> forall k :: 0 <= k < |s| ==> !IsUpper(s[k])
    decreases |s|
  {
    if s != [] {
      NoUpperIff(s[1..]);
      assert forall k :: 1 <= k < |s| ==> s[k] == s[1..][k - 1];
    }
  }

  /** A key without capital letters is left as it is. */
  lemma {:induction false} NoUpperUnchanged(s: string)
    requires NoUpper(s)
    ensures SpaceBeforeUpper(s) == s
    decreases |s|
  {
    if s != [] {
      NoUpperUnchanged(s[1..]);
      assert s == [s[0]] + s[1..];
    }
  }

  /** The white space `trim` removes: the ASCII ones and the no-break, byte-order and line and paragraph separators. */
  predicate IsWhiteSpace(c: char) {
    c == ' ' || c == '\t' || c == '\n' || c == '\r' || c == '\U{B}' || c == '\U{C}'
    || c == '\U{A0}' || c == '\U{FEFF}' || c == '\U{2028}' || c == '\U{2029}'
  }

  function TrimStart(s: string): (r: string)
    ensures |r| <= |s|
    ensures r != [] ==> !IsWhiteSpace(r[0])
    decreases |s|
  {
    if s != [] && IsWhiteSpace(s[0]) then TrimStart(s[1..]) else s
  }

  function TrimEnd(s: string): (r: string)
    ensures |r| <= |s|
    ensures r != [] ==> !IsWhiteSpace(r[|r| - 1])
    decreases |s|
  {
    if s != [] && IsWhiteSpace(s[|s| - 1]) then TrimEnd(s[..|s| - 1]) else s
  }

  /** `s.trim()`. */
  function Trim(s: string): (r: string) {
    TrimEnd(TrimStart(s))
  }

  /** A row's label: `key.replace(/([A-Z])/g, " $1").trim()`. */
  function RowLabel(key: string): string {
    Trim(SpaceBeforeUpper(key))
  }

  /** The spread key ends with the key's last character. */
  lemma SpaceBeforeUpperLast(s: string)
    requires s != []
    ensures SpaceBeforeUpper(s) != [] && SpaceBeforeUpper(s)[|SpaceBeforeUpper(s)| - 1] == s[|s| - 1]
  {
    var n := |s| - 1;
    assert s == s[..n] + [s[n]];
    SpaceBeforeUpperAppend(s[..n], [s[n]]);
    assert SpaceBeforeUpper([s[n]]) == Spread(s[n]) + SpaceBeforeUpper([]);
  }

  lemma TrimStartKeeps(s: string)
    requires s != [] && !IsWhiteSpace(s[0])
    ensures TrimStart(s) == s
  {
  }

  lemma TrimStartSpace(s: string)
    ensures TrimStart([' '] + s) == TrimStart(s)
  {
    assert ([' '] + s)[1..] == s;
  }

  lemma TrimEndKeeps(s: string)
    requires s != [] && !IsWhiteSpace(s[|s| - 1])
    ensures TrimEnd(s) == s
  {
  }

  /**
   * For a key that neither starts nor ends with white space, the label is
   * the key with one space before each capital letter except a first one.
   */
  lemma {:induction false} RowLabelOfKey(key: string)
    requires key != [] && !IsWhiteSpace(key[0]) && !IsWhiteSpace(key[|key| - 1])
    ensures RowLabel(key) == [key[0]] + SpaceBeforeUpper(key[1..])
  {
    var rest := SpaceBeforeUpper(key[1..]);
    var spread := SpaceBeforeUpper(key);
    var body := [key[0]] + rest;
    assert spread == Spread(key[0]) + rest;
    TrimStartKeeps(body);
    if IsUpper(key[0]) {
      assert spread == [' '] + body;
      TrimStartSpace(body);
    } else {
      assert spread == body;
    }
    assert TrimStart(spread) == body;
    SpaceBeforeUpperLast(key);
    assert body[|body| - 1] == spread[|spread| - 1];
    TrimEndKeeps(body);
  }

  /** A key without capital letters and without surrounding white space is its own label. */
  lemma PlainKeyIsItsLabel(key: string)
    requires NoUpper(key)
    requires key == [] || (!IsWhiteSpace(key[0]) && !IsWhiteSpace(key[|key| - 1]))
    ensures RowLabel(key) == key
  {
    if key != [] {
      RowLabelOfKey(key);
      NoUpperUnchanged(key[1..]);
      assert key == [key[0]] + key[1..];
    } else {
      assert SpaceBeforeUpper(key) == [];
    }
  }

  /**
   * A camel-case key of two words, the second capitalised, reads as the two
   * words with a space between, whether or not the first is capitalised.
   */
  lemma {:induction false} TwoWordLabel(first: string, second: string)
    requires first != [] && !IsWhiteSpace(first[0])
    requires NoUpper(first[1..])
    requires second != [] && IsUpper(second[0]) && !IsWhiteSpace(second[|second| - 1])
    requires NoUpper(second[1..])
    ensures RowLabel(first + second) == first + [' '] + second
  {
    TwoWordLabelHead(first, second);
    TwoWordLabelRest(first[1..], second);
    Regroup(first, second);
  }

  lemma {:induction false} TwoWordLabelHead(first: string, second: string)
    requires first != [] && !IsWhiteSpace(first[0])
    requires second != [] && !IsWhiteSpace(second[|second| - 1])
    ensures RowLabel(first + second) == [first[0]] + SpaceBeforeUpper(first[1..] + second)
  {
    var key := first + second;
    assert key[0] == first[0] && key[|key| - 1] == second[|second| - 1];
    RowLabelOfKey(key);
    var rest := first[1..] + second;
    assert key[1..] == rest;
    assert RowLabel(key) == [first[0]] + SpaceBeforeUpper(rest);
  }

  lemma {:induction false} TwoWordLabelRest(head: string, second: string)
    requires NoUpper(head)
    requires second != [] && IsUpper(second[0]) && NoUpper(second[1..])
    ensures SpaceBeforeUpper(head + second) == head + [' ', second[0]] + second[1..]
  {
    SpaceBeforeUpperAppend(head, second);
    NoUpperUnchanged(head);
    NoUpperUnchanged(second[1..]);
    var sp := Spread(second[0]);
    assert SpaceBeforeUpper(second) == sp + second[1..];
    assert sp == [' ', second[0]];
    assert head + (sp + second[1..]) == head + sp + second[1..];
  }

  lemma Regroup(first: string, second: string)
    requires first != [] && second != []
    ensures [first[0]] + first[1..] + [' ', second[0]] + second[1..] == first + [' '] + second
  {
    assert first == [first[0]] + first[1..] && second == [second[0]] + second[1..];
  }

  /** "housingAllowance" reads "housing Allowance"; "HousingAllowance" reads "Housing Allowance". */
  lemma HousingAllowanceLabels(low: string, cap: string, tail: string)
    requires low == "housing" && cap == "Housing" && tail == "Allowance"
    ensures RowLabel(low + tail) == "housing Allowance"
    ensures RowLabel(cap + tail) == "Housing Allowance"
  {
    CamelWord(low, tail, "housing Allowance");
    CamelWord(cap, tail, "Housing Allowance");
  }

  /** A word of lower-case letters after its first, followed by "Allowance", reads as the two words with a space. */
  lemma {:induction false} CamelWord(first: string, tail: string, text: string)
    requires first == "housing" || first == "Housing"
    requires tail == "Allowance" && text == first + " " + tail
    ensures RowLabel(first + tail) == text
  {
    var word, rest := first[1..], tail[1..];
    assert forall k :: 0 <= k < |word| ==> !IsUpper(word[k]);
    assert forall k :: 0 <= k < |rest| ==> !IsUpper(rest[k]);
    NoUpperIff(word);
    NoUpperIff(rest);
    TwoWordLabel(first, tail);
  }

  // ---- the rows ----

  /** One table row: its label, the USD value, the ZIG value, and whether the cells carry a leading "-". */
  datatype Row = Row(text: string, usd: real, zig: real, negative: bool)

  /** `Object.entries(section).map(...)`: one row per entry, in entry order. */
  function Rows(entries: seq<(string, real)>, rate: real, negative: bool): (r: seq<Row>)
    ensures |r| == |entries|
    ensures forall k :: 0 <= k < |entries| ==>
      r[k] == Row(RowLabel(entries[k].0), entries[k].1, entries[k].1 * rate, negative)
  {
    seq(|entries|, k requires 0 <= k < |entries| => Row(RowLabel(entries[k].0), entries[k].1, entries[k].1 * rate, negative))
  }

  /** Every row's ZIG value is its USD value at the rate. */
  predicate AtRate(rows: seq<Row>, rate: real) {
    forall k :: 0 <= k < |rows| ==> rows[k].zig == rows[k].usd * rate
  }

  lemma RowsAtRate(entries: seq<(string, real)>, rate: real, negative: bool)
    ensures AtRate(Rows(entries, rate, negative), rate)
  {
  }

  lemma AtRateAppend(a: seq<Row>, b: seq<Row>, rate: real)
    requires AtRate(a, rate) && AtRate(b, rate)
    ensures AtRate(a + b, rate)
  {
    forall k | 0 <= k < |a + b| ensures (a + b)[k].zig == (a + b)[k].usd * rate {
      if k < |a| {
        assert (a + b)[k] == a[k];
      } else {
        assert (a + b)[k] == b[k - |a|];
      }
    }
  }

  /** The table body between the base salary and the net salary: benefits rows, then deductions rows marked with "-". */
  function SectionRows(benefits: seq<(string, real)>, deductions: seq<(string, real)>, rate: real): (r: seq<Row>)
    ensures |r| == |benefits| + |deductions|
    ensures forall k :: 0 <= k < |benefits| ==> !r[k].negative && r[k].usd == benefits[k].1
    ensures forall k :: 0 <= k < |deductions| ==>
      r[|benefits| + k].negative && r[|benefits| + k].usd == deductions[k].1
    ensures AtRate(r, rate)
  {
    var a, b := Rows(benefits, rate, false), Rows(deductions, rate, true);
    RowsAtRate(benefits, rate, false);
    RowsAtRate(deductions, rate, true);
    AtRateAppend(a, b, rate);
    assert forall k :: 0 <= k < |a| ==> (a + b)[k] == a[k];
    assert forall k :: 0 <= k < |b| ==> (a + b)[|a| + k] == b[k];
    a + b
  }
}
