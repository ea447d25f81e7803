/**
 * The list derivations every CRUD screen repeats: an order-preserving
 * filter, `Array.prototype.slice` paging with `Math.ceil(n / k)` pages,
 * counts and sums over `reduce`, and `Math.round` of a percentage.
 */
module ListView {

  /** `s.filter(p)`. */
  function Filter<T(!new)>(s: seq<T>, p: T -> bool): (r: seq<T>)
    ensures |r| <= |s|
    ensures forall x :: x in r <==> x in s && p(x)
    ensures forall k :: 0 <= k < |r| ==> p(r[k])
  {
    if s == [] then [] else (if p(s[0]) then [s[0]] else []) + Filter(s[1..], p)
  }

  /** `a` is `b` with some elements dropped and the rest kept in order. */
  predicate Subsequence<T(==)>(a: seq<T>, b: seq<T>)
    decreases |b|
  {
    a == [] || (b != [] && ((a[0] == b[0] && Subsequence(a[1..], b[1..])) || Subsequence(a, b[1..])))
  }

  /** A filtered list keeps the order of the list it came from. */
  lemma {:induction false} FilterIsSubsequence<T(!new)>(s: seq<T>, p: T -> bool)
    ensures Subsequence(Filter(s, p), s)
    decreases |s|
  {
    if s != [] {
      FilterIsSubsequence(s[1..], p);
      var r := Filter(s, p);
      if p(s[0]) {
        assert r == [s[0]] + Filter(s[1..], p);
        assert r[1..] == Filter(s[1..], p);
      } else {
        assert r == Filter(s[1..], p);
      }
    }
  }

  /** A property of every element is a property of every element kept. */
  lemma {:induction false} FilterKeepsAll<T(!new)>(s: seq<T>, p: T -> bool, q: T -> bool)
    requires forall k :: 0 <= k < |s| ==> q(s[k])
    ensures forall k :: 0 <= k < |Filter(s, p)| ==> q(Filter(s, p)[k])
    decreases |s|
  {
    if s != [] {
      FilterKeepsAll(s[1..], p, q);
    }
  }

  /** Filtering a list with one element in front. */
  lemma FilterCons<T(!new)>(x: T, s: seq<T>, p: T -> bool)
    ensures Filter([x] + s, p) == (if p(x) then [x] else []) + Filter(s, p)
  {
    assert ([x] + s)[1..] == s;
  }

  /** Filtering distributes over concatenation. */
  lemma {:induction false} FilterAppend<T(!new)>(a: seq<T>, b: seq<T>, p: T -> bool)
    ensures Filter(a + b, p) == Filter(a, p) + Filter(b, p)
    decreases |a|
  {
    if a == [] {
      assert a + b == b;
    } else {
      assert (a + b)[0] == a[0];
      assert (a + b)[1..] == a[1..] + b;
      FilterAppend(a[1..], b, p);
    }
  }

  /** A predicate every element satisfies keeps the whole list. */
  lemma {:induction false} FilterAll<T(!new)>(s: seq<T>, p: T -> bool)
    requires forall k :: 0 <= k < |s| ==> p(s[k])
    ensures Filter(s, p) == s
    decreases |s|
  {
    if s != [] {
      FilterAll(s[1..], p);
    }
  }

  /** A predicate no element satisfies keeps nothing. */
  lemma {:induction false} FilterNone<T(!new)>(s: seq<T>, p: T -> bool)
    requires forall k :: 0 <= k < |s| ==> !p(s[k])
    ensures Filter(s, p) == []
    decreases |s|
  {
    if s != [] {
      FilterNone(s[1..], p);
    }
  }

  function Max(a: int, b: int): int { if a < b then b else a }
  function Min(a: int, b: int): int { if a < b then a else b }

  /** How `slice` clamps one of its arguments against a length `n`: negative counts from the end. */
  function ClampIndex(i: int, n: nat): (r: nat)
    ensures r <= n
    ensures 0 <= i <= n ==> r == i
    ensures i > n ==> r == n
  {
    if i < 0 then Max(n + i, 0) else Min(i, n)
  }

  /** `s.slice(start, end)`. */
  function Slice<T>(s: seq<T>, start: int, end: int): (r: seq<T>)
    ensures |r| <= |s|
  {
    var lo := ClampIndex(start, |s|);
    var hi := ClampIndex(end, |s|);
    if hi <= lo then [] else s[lo..hi]
  }

  /** `copy.splice(start, 1)`: the list without the element at the clamped start, when there is one. */
  function SpliceOne<T>(s: seq<T>, start: int): (r: seq<T>)
    ensures var k := ClampIndex(start, |s|);
      k < |s| ==> (|r| == |s| - 1
                   && (forall j :: 0 <= j < k ==> r[j] == s[j])
                   && (forall j :: k <= j < |r| ==> r[j] == s[j + 1]))
    ensures ClampIndex(start, |s|) == |s| ==> r == s
  {
    var k := ClampIndex(start, |s|);
    if k < |s| then s[..k] + s[k + 1..] else s
  }

  /** Putting the removed element back at its index restores the list, and nothing else was lost. */
  lemma SpliceOneReinsert<T>(s: seq<T>, i: int)
    requires 0 <= i < |s|
    ensures s[..i] + [s[i]] + SpliceOne(s, i)[i..] == s
    ensures multiset(SpliceOne(s, i)) + multiset{s[i]} == multiset(s)
  {
    var r := SpliceOne(s, i);
    assert r == s[..i] + s[i + 1..];
    assert r[i..] == s[i + 1..];
    assert s == s[..i] + [s[i]] + s[i + 1..];
  }

  /** Page `page` of `size` items: `s.slice((page - 1) * size, page * size)`. */
  function Page<T>(s: seq<T>, page: int, size: nat): (r: seq<T>)
    ensures |r| <= size
  {
    Slice(s, (page - 1) * size, page * size)
  }

  /** Page `p` (counting from 1) holds the items at positions `(p-1)*k` up to `p*k`, cut at the end of the list. */
  lemma PageWindow<T>(s: seq<T>, page: int, size: nat)
    requires page >= 1
    ensures Page(s, page, size) == s[Min((page - 1) * size, |s|)..Min(page * size, |s|)]
    ensures |Page(s, page, size)| <= size
  {
    var lo := (page - 1) * size;
    assert lo >= 0 by { assert page - 1 >= 0; }
    assert page * size == lo + size;
  }

  /** `Math.ceil(n / size)`, the number of pages. */
  function TotalPages(n: nat, size: nat): (r: nat)
    requires size > 0
  {
    (n + size - 1) / size
  }

  /** The last page is the first that reaches the end of the list, and an empty list has no pages. */
  lemma TotalPagesBounds(n: nat, size: nat)
    requires size > 0
    ensures n == 0 ==> TotalPages(n, size) == 0
    ensures (TotalPages(n, size) - 1) * size < n || n == 0
    ensures n <= TotalPages(n, size) * size
  {
    var t := TotalPages(n, size);
    assert (n + size - 1) == t * size + (n + size - 1) % size;
  }

  /** Pages 1 to `m` laid end to end. */
  function PagesUpTo<T>(s: seq<T>, size: nat, m: nat): seq<T> {
    if m == 0 then [] else PagesUpTo(s, size, m - 1) + Page(s, m, size)
  }

  /** The first `m` pages are the list cut after `m * size` items. */
  lemma {:induction false} PagesUpToPrefix<T>(s: seq<T>, size: nat, m: nat)
    ensures PagesUpTo(s, size, m) == s[..Min(m * size, |s|)]
  {
    if m > 0 {
      PagesUpToPrefix(s, size, m - 1);
      PageWindow(s, m, size);
      MulStep(m, size);
      assert PagesUpTo(s, size, m) == PagesUpTo(s, size, m - 1) + Page(s, m, size);
      PrefixSplit(s, Min((m - 1) * size, |s|), Min(m * size, |s|));
    }
  }

  lemma MulStep(m: nat, size: nat)
    requires m > 0
    ensures m * size == (m - 1) * size + size
  {
  }

  lemma PrefixSplit<T>(s: seq<T>, a: nat, b: nat)
    requires a <= b <= |s|
    ensures s[..a] + s[a..b] == s[..b]
  {
  }

  /** Showing pages 1 to `TotalPages` one after another shows every item exactly once, in order. */
  lemma PagesCoverList<T>(s: seq<T>, size: nat)
    requires size > 0
    ensures PagesUpTo(s, size, TotalPages(|s|, size)) == s
  {
    TotalPagesBounds(|s|, size);
    PagesUpToPrefix(s, size, TotalPages(|s|, size));
  }

  /** A page after the last one is empty. */
  lemma PageBeyondLast<T>(s: seq<T>, page: int, size: nat)
    requires size > 0
    requires page > TotalPages(|s|, size)
    ensures Page(s, page, size) == []
  {
    TotalPagesBounds(|s|, size);
    var t := TotalPages(|s|, size);
    PageWindow(s, page, size);
    assert (page - 1) * size >= t * size by {
      assert page - 1 >= t;
      MulMonotone(t, page - 1, size);
    }
  }

  lemma MulMonotone(a: nat, b: nat, c: nat)
    requires a <= b
    ensures a * c <= b * c
  {
  }

  /** `s.filter(p).length`. */
  function Count<T(!new)>(s: seq<T>, p: T -> bool): (r: nat)
    ensures r <= |s|
  {
    |Filter(s, p)|
  }

  /** Two predicates that never hold together count at most the length between them. */
  lemma {:induction false} CountDisjoint<T(!new)>(s: seq<T>, p: T -> bool, q: T -> bool)
    requires forall k :: 0 <= k < |s| ==> !(p(s[k]) && q(s[k]))
    ensures Count(s, p) + Count(s, q) <= |s|
    decreases |s|
  {
    if s != [] {
      CountDisjoint(s[1..], p, q);
    }
  }

  /** Three predicates no two of which hold together count at most the length between them. */
  lemma {:induction false} CountDisjoint3<T(!new)>(s: seq<T>, p: T -> bool, q: T -> bool, r: T -> bool)
    requires forall k :: 0 <= k < |s| ==> !(p(s[k]) && q(s[k])) && !(p(s[k]) && r(s[k])) && !(q(s[k]) && r(s[k]))
    ensures Count(s, p) + Count(s, q) + Count(s, r) <= |s|
    decreases |s|
  {
    if s != [] {
      CountDisjoint3(s[1..], p, q, r);
    }
  }

  /** `s.reduce((sum, x) => sum + f(x), 0)`. */
  function Sum<T>(s: seq<T>, f: T -> int): int {
    if s == [] then 0 else f(s[0]) + Sum(s[1..], f)
  }

  /** Summing a difference is the difference of the sums. */
  lemma {:induction false} SumDifference<T>(s: seq<T>, f: T -> int, g: T -> int, h: T -> int)
    requires forall x :: h(x) == f(x) - g(x)
    ensures Sum(s, h) == Sum(s, f) - Sum(s, g)
    decreases |s|
  {
    if s != [] {
      SumDifference(s[1..], f, g, h);
    }
  }

  /** Scaling every term scales the sum. */
  lemma {:induction false} SumScale<T>(s: seq<T>, f: T -> int, g: T -> int, k: int)
    requires forall x :: g(x) == k * f(x)
    ensures Sum(s, g) == k * Sum(s, f)
    decreases |s|
  {
    if s != [] {
      SumScale(s[1..], f, g, k);
    }
  }

  /** A sum of non-negative terms is non-negative. */
  lemma {:induction false} SumNonNegative<T>(s: seq<T>, f: T -> int)
    requires forall x :: f(x) >= 0
    ensures Sum(s, f) >= 0
    decreases |s|
  {
    if s != [] {
      SumNonNegative(s[1..], f);
    }
  }

  /**
   * `Math.round((part / whole) * 100)` on the exact rational, or 0 for an
   * empty whole: the nearest integer to the percentage, halves rounded up.
   * The page computes the quotient and the product in doubles, which can
   * land just below an exact half (23/40 shows 57, not 58).
   */
  function RoundPercent(part: nat, whole: nat): (r: int)
    ensures whole == 0 ==> r == 0
    ensures whole > 0 ==> 2 * r * whole - whole <= 200 * part < 2 * r * whole + whole
    ensures part <= whole ==> 0 <= r <= 100
  {
    if whole == 0 then 0
    else
      var q := (200 * part + whole) / (2 * whole);
      RoundPercentBounds(part, whole, q);
      q
  }

  lemma RoundPercentBounds(part: nat, whole: nat, q: int)
    requires whole > 0 && q == (200 * part + whole) / (2 * whole)
    ensures 2 * q * whole - whole <= 200 * part < 2 * q * whole + whole
    ensures part <= whole ==> 0 <= q <= 100
  {
    var d, n := 2 * whole, 200 * part + whole;
    var qd := q * d;
    assert qd <= n < qd + d by { DivBounds(n, d, q); }
    assert 2 * q * whole == qd by { MulShift(q, whole); }
    if part <= whole {
      if q > 100 {
        MulAtLeast(q, 101, d);
        assert false;
      }
      if q < 0 {
        MulAtMost(q, -1, d);
        assert false;
      }
    }
  }

  lemma DivBounds(n: int, d: int, q: int)
    requires d > 0 && q == n / d
    ensures q * d <= n < q * d + d
  {
  }

  lemma MulShift(q: int, w: int)
    ensures 2 * q * w == q * (2 * w)
  {
  }

  lemma MulAtLeast(q: int, k: int, d: int)
    requires q >= k && d > 0
    ensures q * d >= k * d
  {
  }

  lemma MulAtMost(q: int, k: int, d: int)
    requires q <= k && d > 0
    ensures q * d <= k * d
  {
  }
}
