/**
 * The currency manager (src/components/Accounting/Currencies.tsx): a list
 * of currencies, each with a history of exchange rates. The list page shows
 * each currency's first rate as the latest; the detail page of a selected
 * currency sorts that currency's rates in place, newest first, and lets the
 * user add a rate (at the front) or delete one by its row index.
 * Dates are millisecond timestamps; parsing the typed rate and date is left
 * to the caller.
 */
module Currencies {
  import opened Wrappers

  /** One exchange rate and the moment it was recorded. */
  datatype Rate = Rate(rate: real, date: int)

  datatype Currency = Currency(code: string, rates: seq<Rate>)

  /** USD at 1, EUR at 0.92 and ZWL at 5500, each recorded at `now`. */
  function InitialCurrencies(now: int): (r: seq<Currency>)
    ensures |r| == 3 && r[0].code == "USD" && r[1].code == "EUR" && r[2].code == "ZWL"
    ensures forall k :: 0 <= k < 3 ==> |r[k].rates| == 1 && r[k].rates[0].date == now
  {
    [Currency("USD", [Rate(1.0, now)]), Currency("EUR", [Rate(0.92, now)]), Currency("ZWL", [Rate(5500.0, now)])]
  }

  /** The list page's "Latest Exchange Rate" cell: the first rate, absent when the history is empty. */
  function LatestRate(c: Currency): (r: Option<real>)
    ensures r.Some? <==> |c.rates| > 0
    ensures r.Some? ==> r.value == c.rates[0].rate
  {
    if |c.rates| > 0 then Some(c.rates[0].rate) else None
  }

  // ---- adding and deleting rates ----

  /** `addRate` on the list: every currency with the code gets the rate in front; the others are kept. */
  function PrependRate(cs: seq<Currency>, code: string, rate: Rate): (r: seq<Currency>)
    ensures |r| == |cs|
    ensures forall k :: 0 <= k < |cs| && cs[k].code == code ==> r[k] == Currency(code, [rate] + cs[k].rates)
    ensures forall k :: 0 <= k < |cs| && cs[k].code != code ==> r[k] == cs[k]
  {
    if cs == [] then []
    else [if cs[0].code == code then cs[0].(rates := [rate] + cs[0].rates) else cs[0]] + PrependRate(cs[1..], code, rate)
  }

  /** `rates.filter((_, i) => i !== index)`: the entry at `index` goes, and no other; an index outside the list removes nothing. */
  function DropIndex(s: seq<Rate>, index: int): (r: seq<Rate>)
    ensures 0 <= index < |s| ==> |r| == |s| - 1 && r[..index] == s[..index] && r[index..] == s[index + 1..]
    ensures !(0 <= index < |s|) ==> r == s
  {
    if 0 <= index < |s| then s[..index] + s[index + 1..] else s
  }

  /** `removeRate` on the list: every currency with the code loses the entry at `index`; the others are kept. */
  function RemoveRateAt(cs: seq<Currency>, code: string, index: int): (r: seq<Currency>)
    ensures |r| == |cs|
    ensures forall k :: 0 <= k < |cs| && cs[k].code == code ==> r[k] == Currency(code, DropIndex(cs[k].rates, index))
    ensures forall k :: 0 <= k < |cs| && cs[k].code != code ==> r[k] == cs[k]
  {
    if cs == [] then []
    else [if cs[0].code == code then cs[0].(rates := DropIndex(cs[0].rates, index)) else cs[0]] + RemoveRateAt(cs[1..], code, index)
  }

  // ---- the detail page's sort ----

  /** Newest date first. */
  predicate NewestFirst(s: seq<Rate>) {
    forall p, q :: 0 <= p < q < |s| ==> s[p].date >= s[q].date
  }

  /** `rates.sort((a, b) => b.date - a.date)`, in place: an insertion sort by swaps. */
  method SortNewestFirst(a: array<Rate>)
    modifies a
    ensures NewestFirst(a[..])
    ensures multiset(a[..]) == multiset(old(a[..]))
    ensures NewestFirst(old(a[..])) ==> a[..] == old(a[..])
  {
    var i := 0;
    while i < a.Length
      invariant 0 <= i <= a.Length
      invariant forall p, q :: 0 <= p < q < i ==> a[p].date >= a[q].date
      invariant multiset(a[..]) == multiset(old(a[..]))
      invariant NewestFirst(old(a[..])) ==> a[..] == old(a[..])
    {
      InsertBack(a, i);
      i := i + 1;
    }
  }

  /**
   * One pass of the insertion sort: the rate at `i` moves back past every
   * older rate of the sorted prefix before it. A rate no newer than its
   * predecessor stays where it is, and nothing moves.
   */
  method InsertBack(a: array<Rate>, i: int)
    requires 0 <= i < a.Length
    requires forall p, q :: 0 <= p < q < i ==> a[p].date >= a[q].date
    modifies a
    ensures forall p, q :: 0 <= p < q <= i ==> a[p].date >= a[q].date
    ensures multiset(a[..]) == multiset(old(a[..]))
    ensures i == 0 || old(a[i - 1].date) >= old(a[i].date) ==> a[..] == old(a[..])
  {
    var j := i;
    while j > 0 && a[j - 1].date < a[j].date
      invariant 0 <= j <= i
      invariant forall p, q :: 0 <= p < q <= i && p != j && q != j ==> a[p].date >= a[q].date
      invariant forall q :: j < q <= i ==> a[j].date >= a[q].date
      invariant multiset(a[..]) == multiset(old(a[..]))
      invariant j == i ==> a[..] == old(a[..])
      invariant j < i ==> 0 < i && old(a[i - 1].date) < old(a[i].date)
    {
      SwapBack(a, j);
      j := j - 1;
    }
  }

  /** Exchanges the rates at `j - 1` and `j`, keeping the same rates. */
  method SwapBack(a: array<Rate>, j: int)
    requires 0 < j < a.Length
    modifies a
    ensures a[j - 1] == old(a[j]) && a[j] == old(a[j - 1])
    ensures forall k :: 0 <= k < a.Length && k != j - 1 && k != j ==> a[k] == old(a[k])
    ensures multiset(a[..]) == multiset(old(a[..]))
  {
    a[j - 1], a[j] := a[j], a[j - 1];
  }

  // ---- adding a rate on the detail page ----

  /**
   * The history the detail page shows after an add: the selected history was
   * already sorted by the render that showed the "Add Rate" button, the new
   * rate went in front, and the next render sorted the result again, leaving
   * it alone when it was already sorted. The new rate heads the table, and
   * is the list page's latest rate, exactly when no earlier rate is dated
   * after it.
   */
  lemma AddedRateIsLatest(code: string, before: seq<Rate>, rate: Rate, shown: seq<Rate>)
    requires NewestFirst(before)
    requires NewestFirst(shown) && multiset(shown) == multiset([rate] + before)
    requires NewestFirst([rate] + before) ==> shown == [rate] + before
    ensures |shown| == |before| + 1
    ensures shown[0] == rate <==> forall k :: 0 <= k < |before| ==> before[k].date <= rate.date
    ensures (forall k :: 0 <= k < |before| ==> before[k].date <= rate.date) ==>
      LatestRate(Currency(code, shown)) == Some(rate.rate)
  {
    assert |multiset(shown)| == |multiset([rate] + before)|;
    if forall k :: 0 <= k < |before| ==> before[k].date <= rate.date {
      AddedInFrontIsSorted(before, rate);
    }
    if shown[0] == rate {
      forall k | 0 <= k < |before| ensures before[k].date <= rate.date {
        assert before[k] in multiset([rate] + before);
        assert before[k] in shown;
        var m :| 0 <= m < |shown| && shown[m] == before[k];
        assert m == 0 || shown[0].date >= shown[m].date;
      }
    }
  }

  /** A rate dated no earlier than every rate of a sorted history can go in front of it. */
  lemma AddedInFrontIsSorted(before: seq<Rate>, rate: Rate)
    requires NewestFirst(before)
    requires forall k :: 0 <= k < |before| ==> before[k].date <= rate.date
    ensures NewestFirst([rate] + before)
  {
    var s := [rate] + before;
    forall p, q | 0 <= p < q < |s| ensures s[p].date >= s[q].date {
      if p == 0 {
        assert s[q] == before[q - 1];
      } else {
        assert s[p] == before[p - 1] && s[q] == before[q - 1];
      }
    }
  }

  /**
   * Deleting row 0 of the shown history right after an add removes the
   * added rate, giving back the history as it was, exactly when no earlier
   * rate is dated after it; otherwise the added rate survives the delete.
   */
  lemma RemoveUndoesAdd(code: string, before: seq<Rate>, rate: Rate, shown: seq<Rate>)
    requires NewestFirst(before)
    requires NewestFirst(shown) && multiset(shown) == multiset([rate] + before)
    requires NewestFirst([rate] + before) ==> shown == [rate] + before
    ensures (forall k :: 0 <= k < |before| ==> before[k].date <= rate.date) ==> DropIndex(shown, 0) == before
    ensures !(forall k :: 0 <= k < |before| ==> before[k].date <= rate.date) ==> rate in DropIndex(shown, 0)
  {
    AddedRateIsLatest(code, before, rate, shown);
    if !(forall k :: 0 <= k < |before| ==> before[k].date <= rate.date) {
      assert rate in multiset(shown);
      var m :| 0 <= m < |shown| && shown[m] == rate;
      assert m != 0;
      assert DropIndex(shown, 0)[m - 1] == rate;
    } else {
      assert shown == [rate] + before;
    }
  }

  /**
   * The state after "Add Rate" and the render's sort, from the three
   * currency lists: the one before, the one with the rate prepended and the
   * one with the selected history sorted.
   */
  lemma AddThenSort(cs: seq<Currency>, added: seq<Currency>, shown: seq<Currency>, code: string, rate: Rate)
    requires FindCode(cs, code).Some? && NewestFirst(cs[FindCode(cs, code).value].rates)
    requires added == PrependRate(cs, code, rate)
    requires FindCode(added, code) == FindCode(cs, code) && |shown| == |added|
    requires var k := FindCode(added, code).value;
      NewestFirst(shown[k].rates) && multiset(shown[k].rates) == multiset(added[k].rates)
      && (NewestFirst(added[k].rates) ==> shown[k] == added[k])
    ensures var k := FindCode(cs, code).value;
      var before := cs[k].rates;
      var newest := forall m :: 0 <= m < |before| ==> before[m].date <= rate.date;
      |shown[k].rates| == |before| + 1
      && (shown[k].rates[0] == rate <==> newest)
      && (newest ==> shown[k].rates == [rate] + before && LatestRate(shown[k]) == Some(rate.rate))
  {
    var k := FindCode(cs, code).value;
    assert added[k].rates == [rate] + cs[k].rates;
    AddedRateIsLatest(code, cs[k].rates, rate, shown[k].rates);
    if forall m :: 0 <= m < |cs[k].rates| ==> cs[k].rates[m].date <= rate.date {
      AddedInFrontIsSorted(cs[k].rates, rate);
    }
  }

  /** Prepending a rate keeps every code in place, so `find` gives the same answer. */
  lemma {:induction false} FindCodeAfterPrepend(cs: seq<Currency>, code: string, rate: Rate, c: string)
    ensures FindCode(PrependRate(cs, code, rate), c) == FindCode(cs, c)
  {
    if cs != [] {
      FindCodeAfterPrepend(cs[1..], code, rate, c);
      assert PrependRate(cs, code, rate)[1..] == PrependRate(cs[1..], code, rate);
    }
  }

  /** `find`: the index of the first currency with the code. */
  function FindCode(cs: seq<Currency>, code: string): (r: Option<nat>)
    ensures r.Some? ==> r.value < |cs| && cs[r.value].code == code
    ensures r.Some? ==> forall k :: 0 <= k < r.value ==> cs[k].code != code
    ensures r.None? ==> forall k :: 0 <= k < |cs| ==> cs[k].code != code
  {
    if cs == [] then None
    else if cs[0].code == code then Some(0)
    else
      var r := FindCode(cs[1..], code);
      if r.Some? then Some(r.value + 1) else None
  }

  /** The screen's state. */
  class CurrencyManager {
    var currencies: seq<Currency>
    var selectedCurrency: Option<string>
    var newRateText: string
    var newDateText: string

    constructor (now: int)
      ensures currencies == InitialCurrencies(now)
      ensures selectedCurrency.None? && newRateText == "" && newDateText == ""
    {
      currencies := InitialCurrencies(now);
      selectedCurrency := None;
      newRateText := "";
      newDateText := "";
    }

    /** A click on a row of the list page. */
    method Select(code: string)
      modifies this`selectedCurrency
      ensures selectedCurrency == Some(code)
    {
      selectedCurrency := Some(code);
    }

    /** "Back to Currencies". */
    method Back()
      modifies this`selectedCurrency
      ensures selectedCurrency.None?
    {
      selectedCurrency := None;
    }

    method SetNewRate(rateText: string, dateText: string)
      modifies this`newRateText, this`newDateText
      ensures newRateText == rateText && newDateText == dateText
    {
      newRateText := rateText;
      newDateText := dateText;
    }

    /**
     * `addRate`, given the parsed rate and date of the typed texts. Unless
     * both texts and the selected code are non-empty nothing happens;
     * otherwise the rate goes in front of the selected currency's history
     * and the inputs are cleared.
     */
    method AddRate(rate: real, date: int)
      modifies this`currencies, this`newRateText, this`newDateText
      ensures old(newRateText == "" || newDateText == "" || selectedCurrency.None? || selectedCurrency.value == "") ==>
        currencies == old(currencies) && newRateText == old(newRateText) && newDateText == old(newDateText)
      ensures old(newRateText != "" && newDateText != "" && selectedCurrency.Some? && selectedCurrency.value != "") ==>
        currencies == PrependRate(old(currencies), selectedCurrency.value, Rate(rate, date))
        && newRateText == "" && newDateText == ""
    {
      if newRateText == "" || newDateText == "" || selectedCurrency.None? || selectedCurrency.value == "" {
        return;
      }
      currencies := PrependRate(currencies, selectedCurrency.value, Rate(rate, date));
      newRateText := "";
      newDateText := "";
    }

    /** `removeRate(code, index)`. */
    method RemoveRate(code: string, index: int)
      modifies this`currencies
      ensures currencies == RemoveRateAt(old(currencies), code, index)
    {
      currencies := RemoveRateAt(currencies, code, index);
    }

    /**
     * Rendering the detail page: the first currency with the selected code
     * has its history sorted newest first, in the state itself, so row
     * indices given to `RemoveRate` count in that order. Nothing else
     * changes.
     */
    method SortSelectedRates()
      modifies this`currencies
      ensures |currencies| == |old(currencies)|
      ensures selectedCurrency.None? || FindCode(old(currencies), selectedCurrency.value).None? ==> currencies == old(currencies)
      ensures selectedCurrency.Some? && FindCode(old(currencies), selectedCurrency.value).Some? ==>
        var k := FindCode(old(currencies), selectedCurrency.value).value;
        currencies[k].code == old(currencies)[k].code
        && NewestFirst(currencies[k].rates)
        && multiset(currencies[k].rates) == multiset(old(currencies)[k].rates)
        && (NewestFirst(old(currencies)[k].rates) ==> currencies[k] == old(currencies)[k])
        && forall m :: 0 <= m < |currencies| && m != k ==> currencies[m] == old(currencies)[m]
    {
      if selectedCurrency.None? {
        return;
      }
      var found := FindCode(currencies, selectedCurrency.value);
      if found.None? {
        return;
      }
      var k := found.value;
      var rates := currencies[k].rates;
      var a := new Rate[|rates|](i requires 0 <= i < |rates| => rates[i]);
      assert a[..] == rates;
      SortNewestFirst(a);
      currencies := currencies[k := currencies[k].(rates := a[..])];
    }

    /**
     * "Add Rate" on the detail page followed by the render it causes. The
     * selected history was sorted by the render that showed the button. The
     * added rate heads the table, and is the latest rate on the list page,
     * exactly when no earlier rate of that currency is dated after it; then
     * the table is the new rate followed by the earlier history.
     */
    method AddRateThenRender(rate: real, date: int)
      requires newRateText != "" && newDateText != "" && selectedCurrency.Some? && selectedCurrency.value != ""
      requires FindCode(currencies, selectedCurrency.value).Some?
      requires NewestFirst(currencies[FindCode(currencies, selectedCurrency.value).value].rates)
      modifies this`currencies, this`newRateText, this`newDateText
      ensures |currencies| == |old(currencies)| && newRateText == "" && newDateText == ""
      ensures var k := FindCode(old(currencies), selectedCurrency.value).value;
        var before := old(currencies)[k].rates;
        var newest := forall m :: 0 <= m < |before| ==> before[m].date <= date;
        |currencies[k].rates| == |before| + 1
        && (currencies[k].rates[0] == Rate(rate, date) <==> newest)
        && (newest ==> currencies[k].rates == [Rate(rate, date)] + before && LatestRate(currencies[k]) == Some(rate))
    {
      var code := selectedCurrency.value;
      FindCodeAfterPrepend(currencies, code, Rate(rate, date), code);
      AddRate(rate, date);
      ghost var added := currencies;
      SortSelectedRates();
      AddThenSort(old(currencies), added, currencies, code, Rate(rate, date));
    }
  }
}
