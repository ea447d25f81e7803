/**
 * The taxes and deductions dropdown of the employee form
 * (components/HR/employees/TaxAndDeductions.tsx): a list of selected
 * choices toggled by id, the selection reported to the parent on every
 * toggle, and a header button that shows the count and opens the panel.
 */
module TaxSelection {
  import Text
  import ListView

  /** A mandatory or optional deduction, known by its id. */
  datatype Choice = Choice(id: string, name: string)

  /** `selected.some(s => s.id === id)`. */
  predicate IsSelected(selected: seq<Choice>, id: string) {
    exists k :: 0 <= k < |selected| && selected[k].id == id
  }

  /** No id is selected twice. */
  predicate IdsDistinct(selected: seq<Choice>) {
    forall i, j :: 0 <= i < j < |selected| ==> selected[i].id != selected[j].id
  }

  function OtherId(id: string): Choice -> bool {
    (c: Choice) => c.id != id
  }

  /**
   * `toggleSelection` on the list: a selected id is dropped (every entry
   * with it), keeping the other entries in order; an unselected choice is
   * appended.
   */
  function Toggled(selected: seq<Choice>, item: Choice): (r: seq<Choice>)
    ensures IsSelected(selected, item.id) ==> !IsSelected(r, item.id)
    ensures IsSelected(selected, item.id) ==>
      ListView.Subsequence(r, selected) && forall c :: c in selected && c.id != item.id ==> c in r
    ensures !IsSelected(selected, item.id) ==> |r| == |selected| + 1 && r[..|selected|] == selected && r[|selected|] == item
    ensures IdsDistinct(selected) ==> IdsDistinct(r)
  {
    if IsSelected(selected, item.id) then
      var r := ListView.Filter(selected, OtherId(item.id));
      ListView.FilterIsSubsequence(selected, OtherId(item.id));
      assert forall k :: 0 <= k < |r| ==> r[k] in r;
      FilterKeepsDistinct(selected, OtherId(item.id));
      r
    else
      var r := selected + [item];
      assert r[..|selected|] == selected;
      r
  }

  /** Filtering never makes two entries share an id. */
  lemma {:induction false} FilterKeepsDistinct(s: seq<Choice>, p: Choice -> bool)
    ensures IdsDistinct(s) ==> IdsDistinct(ListView.Filter(s, p))
    decreases |s|
  {
    if s != [] && IdsDistinct(s) {
      var tail := s[1..];
      assert IdsDistinct(tail) by {
        forall i, j | 0 <= i < j < |tail| ensures tail[i].id != tail[j].id {
          assert tail[i] == s[i + 1] && tail[j] == s[j + 1];
        }
      }
      FilterKeepsDistinct(tail, p);
      var rest := ListView.Filter(tail, p);
      ListView.FilterCons(s[0], tail, p);
      assert s == [s[0]] + tail;
      if p(s[0]) {
        forall k | 0 <= k < |tail| ensures OtherId(s[0].id)(tail[k]) {
          assert tail[k] == s[k + 1];
        }
        ListView.FilterKeepsAll(tail, p, OtherId(s[0].id));
        ConsDistinct(s[0], rest);
      }
    }
  }

  /** A choice in front of a list without its id keeps the ids distinct. */
  lemma ConsDistinct(x: Choice, rest: seq<Choice>)
    requires IdsDistinct(rest)
    requires forall k :: 0 <= k < |rest| ==> OtherId(x.id)(rest[k])
    ensures IdsDistinct([x] + rest)
  {
    var r := [x] + rest;
    forall i, j | 0 <= i < j < |r| ensures r[i].id != r[j].id {
      if i > 0 {
        assert r[i] == rest[i - 1] && r[j] == rest[j - 1];
      } else {
        assert r[j] == rest[j - 1];
      }
    }
  }

  /** Toggling the same choice twice gives back its membership; from unselected, the very same list. */
  lemma ToggleTwice(selected: seq<Choice>, item: Choice)
    ensures IsSelected(Toggled(Toggled(selected, item), item), item.id) == IsSelected(selected, item.id)
    ensures !IsSelected(selected, item.id) ==> Toggled(Toggled(selected, item), item) == selected
  {
    var once := Toggled(selected, item);
    if IsSelected(selected, item.id) {
      assert !IsSelected(once, item.id);
      var twice := Toggled(once, item);
      assert twice[|once|] == item;
    } else {
      assert once[|selected|].id == item.id;
      assert once == selected + [item];
      ListView.FilterAppend(selected, [item], OtherId(item.id));
      ListView.FilterAll(selected, OtherId(item.id));
      ListView.FilterCons(item, [], OtherId(item.id));
      assert [item] + [] == [item];
    }
  }

  /** What `onSelect` receives as written: the earlier selection with the item appended, whatever the toggle did. */
  function ReportedAsWritten(selected: seq<Choice>, item: Choice): seq<Choice> {
    selected + [item]
  }

  /**
   * As written, deselecting a choice reports a list that still holds it,
   * while the dropdown itself no longer does.
   */
  lemma AsWrittenDeselectReportsItem(selected: seq<Choice>, item: Choice)
    requires IsSelected(selected, item.id)
    ensures IsSelected(ReportedAsWritten(selected, item), item.id)
    ensures !IsSelected(Toggled(selected, item), item.id)
    ensures ReportedAsWritten(selected, item) != Toggled(selected, item)
  {
    var r := ReportedAsWritten(selected, item);
    assert r[|selected|].id == item.id;
  }

  /** What `onSelect` is evidently meant to receive: the selection the toggle produced. */
  function Reported(selected: seq<Choice>, item: Choice): seq<Choice> {
    Toggled(selected, item)
  }

  /**
   * The corrected report holds the toggled choice exactly when it was not
   * selected before, and never holds an id twice when the selection did not.
   */
  lemma ReportedFollowsToggle(selected: seq<Choice>, item: Choice)
    ensures IsSelected(Reported(selected, item), item.id) <==> !IsSelected(selected, item.id)
    ensures IdsDistinct(selected) ==> IdsDistinct(Reported(selected, item))
  {
    var r := Reported(selected, item);
    if !IsSelected(selected, item.id) {
      assert r[|selected|].id == item.id;
    }
  }

  /** The header button's text. */
  function ButtonLabel(count: nat): (text: string)
    ensures count == 0 ==> text == "Select taxes and deductions"
    ensures count > 0 ==> exists n :: (0 < n < |text|
                                       && (forall k :: 0 <= k < n ==> Text.IsDigit(text[k]))
                                       && Text.DigitsValue(text[..n]) == count && text[n..] == " selected")
  {
    if count > 0 then
      var digits := Text.NatToString(count);
      var text := digits + " selected";
      Text.NatToStringValue(count);
      assert text[..|digits|] == digits && text[|digits|..] == " selected";
      text
    else
      "Select taxes and deductions"
  }

  /** The dropdown's state. */
  class Dropdown {
    var isOpen: bool
    var selectedItems: seq<Choice>

    constructor ()
      ensures !isOpen && selectedItems == []
    {
      isOpen := false;
      selectedItems := [];
    }

    function Label(): string
      reads this
    {
      ButtonLabel(|selectedItems|)
    }

    /**
     * `toggleSelection(item)`, reporting the corrected list: the selection
     * is toggled and `onSelect` receives the new selection.
     */
    method ToggleSelection(item: Choice) returns (reported: seq<Choice>)
      modifies this`selectedItems
      ensures selectedItems == Toggled(old(selectedItems), item)
      ensures reported == selectedItems == Reported(old(selectedItems), item)
      ensures IsSelected(reported, item.id) <==> !IsSelected(old(selectedItems), item.id)
      ensures IdsDistinct(old(selectedItems)) ==> IdsDistinct(selectedItems)
    {
      ReportedFollowsToggle(selectedItems, item);
      selectedItems := Toggled(selectedItems, item);
      reported := selectedItems;
    }

    /** The header button. */
    method ToggleOpen()
      modifies this`isOpen
      ensures isOpen == !old(isOpen)
    {
      isOpen := !isOpen;
    }

    /** "Done". */
    method Done()
      modifies this`isOpen
      ensures !isOpen
    {
      isOpen := false;
    }
  }
}
