/**
 * The inventory page (pages/InventoryPage.tsx): a search over a constant
 * table of ten items and the status badge labels.
 */
module Inventory {
  import Text
  import ListView

  /** A stock level: a count, or the text "Unlimited". */
  datatype Stock = Units(n: nat) | Unlimited

  datatype InventoryItem = InventoryItem(id: string, name: string, category: string, stock: Stock, status: string)

  /** The rows of the table the page lists. */
  const Inv01: InventoryItem := InventoryItem("INV-001", "Enterprise Servers", "Hardware", Units(24), "in-stock")
  const Inv02: InventoryItem := InventoryItem("INV-002", "Network Switches", "Hardware", Units(18), "in-stock")
  const Inv03: InventoryItem := InventoryItem("INV-003", "Cloud Storage (1TB)", "Services", Unlimited, "available")
  const Inv04: InventoryItem := InventoryItem("INV-004", "Desktop Computers", "Hardware", Units(5), "low-stock")
  const Inv05: InventoryItem := InventoryItem("INV-005", "Office Chairs", "Furniture", Units(15), "in-stock")
  const Inv06: InventoryItem := InventoryItem("INV-006", "Meeting Tables", "Furniture", Units(0), "out-of-stock")
  const Inv07: InventoryItem := InventoryItem("INV-007", "Security Software", "Software", Units(32), "in-stock")
  const Inv08: InventoryItem := InventoryItem("INV-008", "Office Supplies Kit", "Supplies", Units(8), "low-stock")
  const Inv09: InventoryItem := InventoryItem("INV-009", "Laptops", "Hardware", Units(12), "in-stock")
  const Inv10: InventoryItem := InventoryItem("INV-010", "Mobile Phones", "Hardware", Units(0), "out-of-stock")

  /** The table the page lists. */
  const InventoryItems: seq<InventoryItem> := [Inv01, Inv02, Inv03, Inv04, Inv05, Inv06, Inv07, Inv08, Inv09, Inv10]

  /** The name, the category or the id holds the term, ignoring case. */
  predicate Matches(item: InventoryItem, term: string) {
    Text.Includes(item.name, term) || Text.Includes(item.category, term) || Text.Includes(item.id, term)
  }

  /** The filter callback for a term. */
  function Matcher(term: string): InventoryItem -> bool {
    (x: InventoryItem) => Matches(x, term)
  }

  /** `filteredItems`. */
  function FilteredItems(term: string): (r: seq<InventoryItem>)
    ensures forall x :: x in r <==> x in InventoryItems && Matches(x, term)
    ensures ListView.Subsequence(r, InventoryItems)
  {
    ListView.FilterIsSubsequence(InventoryItems, Matcher(term));
    ListView.Filter(InventoryItems, Matcher(term))
  }

  /** An empty search lists all ten items in table order. */
  lemma EmptySearchListsAll()
    ensures FilteredItems("") == InventoryItems
    ensures |FilteredItems("")| == 10
  {
    forall k | 0 <= k < |InventoryItems| ensures Matches(InventoryItems[k], "") {
      Text.EmptyTermMatchesAll(InventoryItems[k].name);
    }
    ListView.FilterAll(InventoryItems, Matcher(""));
  }

  /** The status badge text; an unknown status is shown as it is. */
  function StatusLabel(status: string): (shown: string)
    ensures status !in {"in-stock", "low-stock", "out-of-stock", "available"} ==> shown == status
  {
    match status
    case "in-stock" => "In Stock"
    case "low-stock" => "Low Stock"
    case "out-of-stock" => "Out of Stock"
    case "available" => "Available"
    case _ => status
  }

  /** The four known statuses get distinct labels, none of them a known status. */
  lemma KnownStatusLabels()
    ensures StatusLabel("in-stock") == "In Stock" && StatusLabel("low-stock") == "Low Stock"
    ensures StatusLabel("out-of-stock") == "Out of Stock" && StatusLabel("available") == "Available"
    ensures forall s, t :: s in {"in-stock", "low-stock", "out-of-stock", "available"} && t in {"in-stock", "low-stock", "out-of-stock", "available"} && s != t ==> StatusLabel(s) != StatusLabel(t)
  {
  }

  // ---- the search "HARDWARE" ----

  /** A text with neither `c` nor its capital does not hold "HARDWARE", for `c` one of its letters. */
  lemma NotHardware(text: string, c: char, term: string)
    requires term == "HARDWARE"
    requires c == 'w' || c == 'h'
    requires c !in text && (c as int - 32) as char !in text
    ensures !Text.Includes(text, term)
  {
    assert Text.Lower("HARDWARE") == "hardware";
    Text.LowerAvoids(text, c);
    assert c in "hardware";
    Text.ContainsNeedsChar(Text.Lower(text), "hardware", c);
  }

  /** The category "Hardware" holds "HARDWARE". */
  lemma IsHardware()
    ensures Text.Includes("Hardware", "HARDWARE")
  {
    assert Text.Lower("Hardware") == "hardware" == Text.Lower("HARDWARE");
    assert Text.StartsWith("hardware", "hardware");
  }

  /** An item in the Hardware category matches "HARDWARE". */
  lemma HardwareCategoryMatches(x: InventoryItem, term: string)
    requires term == "HARDWARE"
    requires x.category == "Hardware"
    ensures Matcher(term)(x)
  {
    IsHardware();
  }

  /** An item with neither `c` nor its capital in any searched field does not match "HARDWARE". */
  lemma NoLetterNoMatch(x: InventoryItem, c: char, term: string)
    requires term == "HARDWARE"
    requires c == 'w' || c == 'h'
    requires c !in x.name && (c as int - 32) as char !in x.name
    requires c !in x.category && (c as int - 32) as char !in x.category
    requires c !in x.id && (c as int - 32) as char !in x.id
    ensures !Matcher(term)(x)
  {
    NotHardware(x.name, c, term);
    NotHardware(x.category, c, term);
    NotHardware(x.id, c, term);
  }

  /** Five items of which the first, second and fourth are accepted. */
  lemma FilterKeeps124(x: seq<InventoryItem>, p: InventoryItem -> bool)
    requires |x| == 5
    requires p(x[0]) && p(x[1]) && !p(x[2]) && p(x[3]) && !p(x[4])
    ensures ListView.Filter(x, p) == [x[0], x[1], x[3]]
  {
    var s4 := [x[4]];
    var s3 := [x[3]] + s4;
    var s2 := [x[2]] + s3;
    var s1 := [x[1]] + s2;
    assert x == [x[0]] + s1;
    ListView.FilterCons(x[4], [], p);
    assert [x[4]] + [] == s4;
    var f4 := ListView.Filter(s4, p);
    assert f4 == [];
    ListView.FilterCons(x[3], s4, p);
    var f3 := ListView.Filter(s3, p);
    assert f3 == [x[3]];
    ListView.FilterCons(x[2], s3, p);
    var f2 := ListView.Filter(s2, p);
    assert f2 == [x[3]];
    ListView.FilterCons(x[1], s2, p);
    var f1 := ListView.Filter(s1, p);
    assert f1 == [x[1], x[3]];
    ListView.FilterCons(x[0], s1, p);
  }

  /** Five items of which only the last two are accepted. */
  lemma FilterKeeps45(x: seq<InventoryItem>, p: InventoryItem -> bool)
    requires |x| == 5
    requires !p(x[0]) && !p(x[1]) && !p(x[2]) && p(x[3]) && p(x[4])
    ensures ListView.Filter(x, p) == [x[3], x[4]]
  {
    var s4 := [x[4]];
    var s3 := [x[3]] + s4;
    var s2 := [x[2]] + s3;
    var s1 := [x[1]] + s2;
    assert x == [x[0]] + s1;
    ListView.FilterCons(x[4], [], p);
    assert [x[4]] + [] == s4;
    var f4 := ListView.Filter(s4, p);
    assert f4 == [x[4]];
    ListView.FilterCons(x[3], s4, p);
    var f3 := ListView.Filter(s3, p);
    assert f3 == [x[3], x[4]];
    ListView.FilterCons(x[2], s3, p);
    var f2 := ListView.Filter(s2, p);
    assert f2 == f3;
    ListView.FilterCons(x[1], s2, p);
    var f1 := ListView.Filter(s1, p);
    assert f1 == f3;
    ListView.FilterCons(x[0], s1, p);
  }

  /** The rows of the Hardware category match "HARDWARE". */
  lemma HardwareRowsMatch(term: string)
    requires term == "HARDWARE"
    ensures Matcher(term)(Inv01) && Matcher(term)(Inv02) && Matcher(term)(Inv04)
    ensures Matcher(term)(Inv09) && Matcher(term)(Inv10)
  {
    HardwareCategoryMatches(Inv01, term);
    HardwareCategoryMatches(Inv02, term);
    HardwareCategoryMatches(Inv04, term);
    HardwareCategoryMatches(Inv09, term);
    HardwareCategoryMatches(Inv10, term);
  }

  // The other rows hold no `w` or no `h`, in either case, so they do not match "HARDWARE".

  lemma Row03NoMatch(term: string)
    requires term == "HARDWARE"
    ensures !Matcher(term)(Inv03)
  {
    NoLetterNoMatch(Inv03, 'h', term);
  }

  lemma Row05NoMatch(term: string)
    requires term == "HARDWARE"
    ensures !Matcher(term)(Inv05)
  {
    NoLetterNoMatch(Inv05, 'w', term);
  }

  lemma Row06NoMatch(term: string)
    requires term == "HARDWARE"
    ensures !Matcher(term)(Inv06)
  {
    NoLetterNoMatch(Inv06, 'w', term);
  }

  lemma Row07NoMatch(term: string)
    requires term == "HARDWARE"
    ensures !Matcher(term)(Inv07)
  {
    NoLetterNoMatch(Inv07, 'h', term);
  }

  lemma Row08NoMatch(term: string)
    requires term == "HARDWARE"
    ensures !Matcher(term)(Inv08)
  {
    NoLetterNoMatch(Inv08, 'w', term);
  }

  /** Ten items of which the first, second, fourth, ninth and tenth are accepted. */
  lemma FilterKeepsHardwarePattern(x: seq<InventoryItem>, y: seq<InventoryItem>, p: InventoryItem -> bool)
    requires |x| == 5 && |y| == 5
    requires p(x[0]) && p(x[1]) && !p(x[2]) && p(x[3]) && !p(x[4])
    requires !p(y[0]) && !p(y[1]) && !p(y[2]) && p(y[3]) && p(y[4])
    ensures ListView.Filter(x + y, p) == [x[0], x[1], x[3], y[3], y[4]]
  {
    ListView.FilterAppend(x, y, p);
    FilterKeeps124(x, p);
    FilterKeeps45(y, p);
  }

  /** A filter that keeps the Hardware rows and drops the others lists exactly the Hardware rows. */
  lemma HardwareRowsListed(p: InventoryItem -> bool)
    requires p(Inv01) && p(Inv02) && p(Inv04) && p(Inv09) && p(Inv10)
    requires !p(Inv03) && !p(Inv05) && !p(Inv06) && !p(Inv07) && !p(Inv08)
    ensures ListView.Filter(InventoryItems, p) == [Inv01, Inv02, Inv04, Inv09, Inv10]
  {
    var x := [Inv01, Inv02, Inv03, Inv04, Inv05];
    var y := [Inv06, Inv07, Inv08, Inv09, Inv10];
    assert InventoryItems == x + y;
    FilterKeepsHardwarePattern(x, y, p);
  }

  /**
   * Searching "HARDWARE" lists exactly INV-001, INV-002, INV-004, INV-009
   * and INV-010, in table order.
   */
  lemma HardwareSearch(term: string)
    requires term == "HARDWARE"
    ensures FilteredItems(term) == [Inv01, Inv02, Inv04, Inv09, Inv10]
  {
    HardwareRowsMatch(term);
    Row03NoMatch(term);
    Row05NoMatch(term);
    Row06NoMatch(term);
    Row07NoMatch(term);
    Row08NoMatch(term);
    HardwareRowsListed(Matcher(term));
  }
}
