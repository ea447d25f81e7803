/**
 * The string operations the screens use: lower-casing, substring search
 * (`includes`, `startsWith`), joining lines and splitting them apart again,
 * and removing spaces.
 */
module Text {

  /** ASCII lower-casing of one character; every other character is kept. */
  function LowerChar(c: char): char {
    if 'A' <= c <= 'Z' then (c as int + 32) as char else c
  }

  /** `s.toLowerCase()` restricted to ASCII letters. */
  function Lower(s: string): (r: string)
    ensures |r| == |s|
    ensures forall i :: 0 <= i < |s| ==> r[i] == LowerChar(s[i])
  {
    if s == [] then [] else [LowerChar(s[0])] + Lower(s[1..])
  }

  lemma LowerIdempotent(s: string)
    ensures Lower(Lower(s)) == Lower(s)
  {
  }

  /** `s.startsWith(p)`. */
  predicate StartsWith(s: string, p: string) {
    |p| <= |s| && s[..|p|] == p
  }

  /** `s.includes(t)`, searched from the left. */
  predicate Contains(s: string, t: string)
    decreases |s|
  {
    StartsWith(s, t) || (s != [] && Contains(s[1..], t))
  }

  /** `t` occurs in `s` at offset `i`. */
  predicate OccursAt(s: string, t: string, i: int) {
    0 <= i <= |s| - |t| && s[i..i + |t|] == t
  }

  /** `Contains` holds exactly when `t` occurs at some offset of `s`. */
  lemma {:induction false} ContainsIff(s: string, t: string)
    ensures Contains(s, t) <==> exists i :: OccursAt(s, t, i)
    decreases |s|
  {
    if StartsWith(s, t) {
      assert OccursAt(s, t, 0);
    }
    if s != [] {
      ContainsIff(s[1..], t);
      if Contains(s[1..], t) {
        var i :| OccursAt(s[1..], t, i);
        assert s[i + 1..i + 1 + |t|] == s[1..][i..i + |t|];
        assert OccursAt(s, t, i + 1);
      }
      if exists i :: OccursAt(s, t, i) {
        var i :| OccursAt(s, t, i);
        if i > 0 {
          assert s[1..][i - 1..i - 1 + |t|] == s[i..i + |t|];
          assert OccursAt(s[1..], t, i - 1);
        }
      }
    } else {
      if exists i :: OccursAt(s, t, i) {
        var i :| OccursAt(s, t, i);
        assert |t| == 0;
      }
    }
  }

  /** Every string contains the empty string. */
  lemma ContainsEmpty(s: string)
    ensures Contains(s, "")
  {
  }

  /** `text.toLowerCase().includes(term.toLowerCase())`: the case-insensitive search every screen uses. */
  predicate Includes(text: string, term: string) {
    Contains(Lower(text), Lower(term))
  }

  /** An empty search term matches every text. */
  lemma EmptyTermMatchesAll(text: string)
    ensures Includes(text, "")
  {
  }

  /** The search ignores the case of the term. */
  lemma IncludesIgnoresTermCase(text: string, term: string)
    ensures Includes(text, term) <==> Includes(text, Lower(term))
  {
    LowerIdempotent(term);
  }

  /** A text matches itself and every one of its substrings, whatever their case. */
  lemma {:induction false} IncludesSubstring(text: string, i: nat, j: nat)
    requires i <= j <= |text|
    ensures Includes(text, text[i..j])
  {
    var lt := Lower(text);
    assert lt[i..j] == Lower(text[i..j]);
    assert OccursAt(lt, Lower(text[i..j]), i);
    ContainsIff(lt, Lower(text[i..j]));
  }

  /** A text lacking one of the term's characters does not contain the term. */
  lemma ContainsNeedsChar(s: string, t: string, c: char)
    requires c in t && c !in s
    ensures !Contains(s, t)
  {
    ContainsIff(s, t);
  }

  /** A lower-case letter absent from a text in both cases is absent from its lower-cased form. */
  lemma LowerAvoids(s: string, c: char)
    requires 'a' <= c <= 'z'
    requires c !in s && (c as int - 32) as char !in s
    ensures c !in Lower(s)
  {
    var r := Lower(s);
    forall i | 0 <= i < |s| ensures r[i] != c {
      assert s[i] != c && s[i] != (c as int - 32) as char;
    }
  }

  /** `lines.join(sep)`. */
  function Join(lines: seq<string>, sep: char): (r: string)
    ensures lines == [] ==> r == ""
    decreases |lines|
  {
    if lines == [] then ""
    else if |lines| == 1 then lines[0]
    else lines[0] + [sep] + Join(lines[1..], sep)
  }

  /** A character that none of the parts holds, and that is not the separator, is not in the join. */
  lemma {:induction false} JoinAvoids(lines: seq<string>, sep: char, c: char)
    requires c != sep
    requires forall k :: 0 <= k < |lines| ==> c !in lines[k]
    ensures c !in Join(lines, sep)
    decreases |lines|
  {
    if |lines| > 1 {
      JoinAvoids(lines[1..], sep, c);
    }
  }

  /** Index of the first `c` in `s`. */
  function IndexOf(s: string, c: char): (i: nat)
    requires c in s
    ensures i < |s| && s[i] == c && c !in s[..i]
  {
    if s[0] == c then 0 else 1 + IndexOf(s[1..], c)
  }

  /** Splitting `s` on every occurrence of `sep` (`s.split(sep)`). */
  function Split(s: string, sep: char): (r: seq<string>)
    ensures |r| >= 1
    decreases |s|
  {
    if sep !in s then [s]
    else
      var i := IndexOf(s, sep);
      [s[..i]] + Split(s[i + 1..], sep)
  }

  /** The first `c` is the one with no `c` before it. */
  lemma {:induction false} IndexOfUnique(s: string, c: char, i: nat)
    requires i < |s| && s[i] == c && c !in s[..i]
    ensures IndexOf(s, c) == i
  {
    if i > 0 {
      assert s[0] == s[..i][0];
      assert s[1..][..i - 1] == s[1..i];
      assert forall x :: x in s[1..i] ==> x in s[..i];
      IndexOfUnique(s[1..], c, i - 1);
    }
  }

  lemma SplitAfterPart(a: string, sep: char, rest: string)
    requires sep !in a
    ensures Split(a + [sep] + rest, sep) == [a] + Split(rest, sep)
  {
    var s := a + [sep] + rest;
    assert s[..|a|] == a;
    IndexOfUnique(s, sep, |a|);
    assert s[|a| + 1..] == rest;
  }

  /** Splitting a join on its separator gives the parts back, when no part holds the separator. */
  lemma {:induction false} SplitJoin(lines: seq<string>, sep: char)
    requires |lines| >= 1
    requires forall k :: 0 <= k < |lines| ==> sep !in lines[k]
    ensures Split(Join(lines, sep), sep) == lines
    decreases |lines|
  {
    if |lines| > 1 {
      var rest := lines[1..];
      assert forall k :: 0 <= k < |rest| ==> sep !in rest[k] by {
        forall k | 0 <= k < |rest| ensures sep !in rest[k] {
          assert rest[k] == lines[k + 1];
        }
      }
      SplitJoin(rest, sep);
      assert sep !in lines[0];
      SplitAfterPart(lines[0], sep, Join(rest, sep));
      assert Join(lines, sep) == lines[0] + [sep] + Join(rest, sep);
      assert [lines[0]] + rest == lines;
    } else {
      assert Join(lines, sep) == lines[0];
      assert sep !in lines[0];
      assert [lines[0]] == lines;
    }
  }

  /** `"` + s + `"`: one quoted CSV cell. */
  function Quote(s: string): string {
    "\"" + s + "\""
  }

  /** The quoted cells of one CSV row joined by commas. */
  function QuotedRow(cells: seq<string>): string {
    Join(QuoteAll(cells), ',')
  }

  function QuoteAll(cells: seq<string>): (r: seq<string>)
    ensures |r| == |cells|
    ensures forall k :: 0 <= k < |cells| ==> r[k] == Quote(cells[k])
  {
    if cells == [] then [] else [Quote(cells[0])] + QuoteAll(cells[1..])
  }

  /** A row whose cells hold no line break holds none itself. */
  lemma QuotedRowOneLine(cells: seq<string>)
    requires forall k :: 0 <= k < |cells| ==> '\n' !in cells[k]
    ensures '\n' !in QuotedRow(cells)
  {
    var q := QuoteAll(cells);
    forall k | 0 <= k < |q| ensures '\n' !in q[k] {
      assert q[k] == "\"" + cells[k] + "\"";
    }
    JoinAvoids(q, ',', '\n');
  }

  /**
   * A CSV export: the header cells joined by commas on the first line, then
   * one line per row, all joined by line breaks.
   */
  function CsvText(header: seq<string>, rows: seq<string>): string {
    Join([Join(header, ',')] + rows, '\n')
  }

  /**
   * Splitting an export into lines gives the header line and then exactly the
   * rows, in order, when no header cell or row holds a line break.
   */
  lemma CsvLines(header: seq<string>, rows: seq<string>)
    requires forall k :: 0 <= k < |header| ==> '\n' !in header[k]
    requires forall k :: 0 <= k < |rows| ==> '\n' !in rows[k]
    ensures Split(CsvText(header, rows), '\n') == [Join(header, ',')] + rows
    ensures |Split(CsvText(header, rows), '\n')| == 1 + |rows|
  {
    JoinAvoids(header, ',', '\n');
    var lines := [Join(header, ',')] + rows;
    forall k | 0 <= k < |lines| ensures '\n' !in lines[k] {
      if k > 0 { assert lines[k] == rows[k - 1]; }
    }
    SplitJoin(lines, '\n');
  }

  /** `s` with every space removed. */
  function RemoveSpaces(s: string): (r: string)
    ensures ' ' !in r
    ensures |r| <= |s|
  {
    if s == [] then []
    else (if s[0] == ' ' then [] else [s[0]]) + RemoveSpaces(s[1..])
  }

  lemma {:induction false} RemoveSpacesAppend(a: string, b: string)
    ensures RemoveSpaces(a + b) == RemoveSpaces(a) + RemoveSpaces(b)
    decreases |a|
  {
    if a == [] {
      assert a + b == b;
    } else {
      var head := if a[0] == ' ' then [] else [a[0]];
      assert (a + b)[0] == a[0];
      assert (a + b)[1..] == a[1..] + b;
      RemoveSpacesAppend(a[1..], b);
      calc {
        RemoveSpaces(a + b);
        head + RemoveSpaces(a[1..] + b);
        head + (RemoveSpaces(a[1..]) + RemoveSpaces(b));
        (head + RemoveSpaces(a[1..])) + RemoveSpaces(b);
      }
    }
  }

  /** Removing spaces from a string that has none changes nothing. */
  lemma {:induction false} RemoveSpacesNone(s: string)
    requires ' ' !in s
    ensures RemoveSpaces(s) == s
    decreases |s|
  {
    if s != [] {
      RemoveSpacesNone(s[1..]);
    }
  }

  predicate IsDigit(c: char) {
    '0' <= c <= '9'
  }

  /** The decimal numeral of `n`, as `String(n)` writes it: no sign, no leading zero. */
  function NatToString(n: nat): (r: string)
    ensures |r| >= 1
    ensures forall k :: 0 <= k < |r| ==> IsDigit(r[k])
    ensures |r| > 1 ==> r[0] != '0'
  {
    if n < 10 then [('0' as int + n) as char]
    else NatToString(n / 10) + [('0' as int + n % 10) as char]
  }

  /** The value a string of decimal digits denotes. */
  function DigitsValue(s: string): nat
    requires forall k :: 0 <= k < |s| ==> IsDigit(s[k])
  {
    if s == [] then 0
    else
      assert IsDigit(s[|s| - 1]);
      10 * DigitsValue(s[..|s| - 1]) + (s[|s| - 1] as int - '0' as int)
  }

  /** Reading a numeral back gives the number. */
  lemma {:induction false} NatToStringValue(n: nat)
    ensures DigitsValue(NatToString(n)) == n
  {
    if n >= 10 {
      NatToStringValue(n / 10);
      var s := NatToString(n);
      assert s[..|s| - 1] == NatToString(n / 10);
    }
  }
}
