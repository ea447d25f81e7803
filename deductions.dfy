/**
 * The deductions screen (components/Payroll/Deductions.tsx): a searchable
 * list of employees, one of which at a time is edited. While editing, the
 * screen holds a statutory and a voluntary list of deductions that the
 * handlers rebuild: an entry form appends to one of them, a trash button
 * splices one entry out, and the four Zimbabwean statutory templates can be
 * added once each.
 */
module Deductions {
  import opened Wrappers
  import Text
  import ListView

  /**
   * What an `amount` field holds: a number (a template's amount, or the 0 of
   * `amount || 0`) or the text typed into the amount input.
   */
  datatype Amount = Number(value: int) | Entered(text: string)

  /** One deduction line. Template lines carry a description and the `statutory` flag. */
  datatype Deduction = Deduction(
    name: string,
    description: Option<string>,
    amount: Amount,
    fixedAmount: bool,
    fromTemplate: bool)

  /** The employee's saved lists; each may be absent. */
  datatype SavedDeductions = SavedDeductions(statutory: Option<seq<Deduction>>, voluntary: Option<seq<Deduction>>)

  datatype Employee = Employee(id: string, employeeid: string, firstname: string, deductions: Option<SavedDeductions>)

  /** The list a new deduction goes to, named by the `type` key of the entry form. */
  datatype Kind = Statutory | Voluntary

  /** The entry form for a new deduction; the amount is the raw input text. */
  datatype NewDeduction = NewDeduction(kind: Kind, name: string, amount: string, fixedAmount: bool)

  /** The form as it starts and as every successful addition leaves it. */
  const EmptyForm: NewDeduction := NewDeduction(Voluntary, "", "", true)

  datatype Template = Template(name: string, description: string, fixedAmount: bool, amount: Option<int>)

  /** PAYE, NSSA (60), AIDS Levy and ZIMDEF (50). */
  const StatutoryTemplates: seq<Template> := [
    Template("PAYE", "Pay As You Earn Tax", false, None),
    Template("NSSA", "Pension Contribution", true, Some(60)),
    Template("AIDS Levy", "1% of gross salary", false, None),
    Template("ZIMDEF", "Skills Development Levy", true, Some(50))
  ]

  // ---- search ----

  /** The first name or the employee id holds the term, ignoring case. */
  predicate Matches(e: Employee, term: string) {
    Text.Includes(e.firstname, term) || Text.Includes(e.employeeid, term)
  }

  /** `filteredEmployees`. */
  function Filtered(employees: seq<Employee>, term: string): (r: seq<Employee>)
    ensures forall e :: e in r <==> e in employees && Matches(e, term)
    ensures ListView.Subsequence(r, employees)
  {
    ListView.FilterIsSubsequence(employees, (e: Employee) => Matches(e, term));
    ListView.Filter(employees, (e: Employee) => Matches(e, term))
  }

  // ---- the lists being edited ----

  /** `employee.deductions?.statutory || []`. */
  function SavedStatutory(e: Employee): (r: seq<Deduction>)
    ensures e.deductions.Some? && e.deductions.value.statutory.Some? ==> r == e.deductions.value.statutory.value
    ensures e.deductions.None? || e.deductions.value.statutory.None? ==> r == []
  {
    if e.deductions.Some? then e.deductions.value.statutory.GetOr([]) else []
  }

  /** `employee.deductions?.voluntary || []`. */
  function SavedVoluntary(e: Employee): (r: seq<Deduction>)
    ensures e.deductions.Some? && e.deductions.value.voluntary.Some? ==> r == e.deductions.value.voluntary.value
    ensures e.deductions.None? || e.deductions.value.voluntary.None? ==> r == []
  {
    if e.deductions.Some? then e.deductions.value.voluntary.GetOr([]) else []
  }

  /** The line the entry form adds: `amount || 0` turns an empty amount into the number 0. */
  function FromForm(form: NewDeduction): (d: Deduction)
    ensures d.name == form.name && d.fixedAmount == form.fixedAmount && !d.fromTemplate
    ensures d.amount == Number(0) <==> form.amount == ""
  {
    Deduction(form.name, None, if form.amount == "" then Number(0) else Entered(form.amount), form.fixedAmount, false)
  }

  /** The line a template adds, flagged statutory; a template without an amount adds 0. */
  function FromTemplate(t: Template): (d: Deduction)
    ensures d.name == t.name && d.fromTemplate && d.description == Some(t.description)
    ensures d.amount == Number(if t.amount.Some? then t.amount.value else 0)
  {
    Deduction(t.name, Some(t.description), Number(t.amount.GetOr(0)), t.fixedAmount, true)
  }

  /** `list.some(d => d.name === name)`. */
  predicate HasName(list: seq<Deduction>, name: string) {
    exists k :: 0 <= k < |list| && list[k].name == name
  }

  /** No two lines share a name. */
  predicate NamesDistinct(list: seq<Deduction>) {
    forall i, j :: 0 <= i < j < |list| ==> list[i].name != list[j].name
  }

  /**
   * `addStatutoryTemplate` on the statutory list: `None` (the "already
   * exists" error) when a line of that name is present, else the list with
   * the template's line at the end.
   */
  function AddTemplate(list: seq<Deduction>, t: Template): (r: Option<seq<Deduction>>)
    ensures r.None? <==> HasName(list, t.name)
    ensures r.Some? ==> |r.value| == |list| + 1 && r.value[..|list|] == list && r.value[|list|] == FromTemplate(t)
  {
    if HasName(list, t.name) then None else Some(list + [FromTemplate(t)])
  }

  /** The statutory list after clicking the given templates in turn, errors leaving it as it was. */
  function ApplyTemplates(list: seq<Deduction>, clicks: seq<Template>): seq<Deduction>
    decreases |clicks|
  {
    if clicks == [] then list
    else
      var next := AddTemplate(list, clicks[0]);
      ApplyTemplates(next.GetOr(list), clicks[1..])
  }

  /** One template click keeps the names distinct, and afterwards the template's name is present. */
  lemma AddTemplateKeepsDistinct(list: seq<Deduction>, t: Template)
    requires NamesDistinct(list)
    ensures NamesDistinct(AddTemplate(list, t).GetOr(list))
    ensures HasName(AddTemplate(list, t).GetOr(list), t.name)
  {
    var r := AddTemplate(list, t);
    if r.Some? {
      assert r.value[|list|].name == t.name;
      forall i, j | 0 <= i < j < |r.value| ensures r.value[i].name != r.value[j].name {
        if j == |list| {
          assert r.value[i] == list[i];
        } else {
          assert r.value[i] == list[i] && r.value[j] == list[j];
        }
      }
    }
  }

  /**
   * However the templates are clicked, a statutory list without duplicate
   * names never gets one, every clicked template's name ends up present, and
   * the lines there before keep their place.
   */
  lemma {:induction false} TemplatesNeverDuplicate(list: seq<Deduction>, clicks: seq<Template>)
    requires NamesDistinct(list)
    ensures NamesDistinct(ApplyTemplates(list, clicks))
    ensures forall k :: 0 <= k < |clicks| ==> HasName(ApplyTemplates(list, clicks), clicks[k].name)
    ensures |list| <= |ApplyTemplates(list, clicks)| && ApplyTemplates(list, clicks)[..|list|] == list
    decreases |clicks|
  {
    if clicks != [] {
      var next := AddTemplate(list, clicks[0]).GetOr(list);
      AddTemplateKeepsDistinct(list, clicks[0]);
      TemplatesNeverDuplicate(next, clicks[1..]);
      var r := ApplyTemplates(list, clicks);
      assert r == ApplyTemplates(next, clicks[1..]);
      assert next[..|list|] == list;
      assert r[..|list|] == list by {
        assert r[..|next|] == next;
        assert r[..|list|] == r[..|next|][..|list|];
      }
      forall k | 0 <= k < |clicks| ensures HasName(r, clicks[k].name) {
        if k == 0 {
          var m :| 0 <= m < |next| && next[m].name == clicks[0].name;
          assert r[m] == r[..|next|][m];
        } else {
          assert clicks[k] == clicks[1..][k - 1];
        }
      }
    }
  }

  /** Each of the four templates can be added once to an empty list, and the result has four distinct names. */
  lemma AllTemplatesOnce()
    ensures NamesDistinct(ApplyTemplates([], StatutoryTemplates))
    ensures forall k :: 0 <= k < 4 ==> HasName(ApplyTemplates([], StatutoryTemplates), StatutoryTemplates[k].name)
  {
    TemplatesNeverDuplicate([], StatutoryTemplates);
  }

  /** The screen's state while it is shown. */
  class DeductionsScreen {
    var employees: seq<Employee>
    var loading: bool
    var searchTerm: string
    /** The `employeeid` of the employee being edited, if any. */
    var editMode: Option<string>
    var statutory: seq<Deduction>
    var voluntary: seq<Deduction>
    var newDeduction: NewDeduction

    constructor ()
      ensures employees == [] && !loading && searchTerm == "" && editMode.None?
      ensures statutory == [] && voluntary == [] && newDeduction == EmptyForm
    {
      employees := [];
      loading := false;
      searchTerm := "";
      editMode := None;
      statutory := [];
      voluntary := [];
      newDeduction := EmptyForm;
    }

    function FilteredEmployees(): seq<Employee>
      reads this
    {
      Filtered(employees, searchTerm)
    }

    /** The list named by a kind. */
    function ListOf(kind: Kind): seq<Deduction>
      reads this
    {
      match kind
      case Statutory => statutory
      case Voluntary => voluntary
    }

    /** `fetchEmployees` once the call returns: a failure keeps the list; loading ends either way. */
    method FinishFetch(response: Outcome<seq<Employee>>)
      modifies this`employees, this`loading
      ensures !loading
      ensures employees == if response.Ok? then response.payload else old(employees)
    {
      if response.Ok? {
        employees := response.payload;
      }
      loading := false;
    }

    method SetSearchTerm(term: string)
      modifies this`searchTerm
      ensures searchTerm == term
    {
      searchTerm := term;
    }

    /** `handleEdit`: edit this employee, starting from the saved lists or empty ones. */
    method HandleEdit(e: Employee)
      modifies this`editMode, this`statutory, this`voluntary
      ensures editMode == Some(e.employeeid)
      ensures statutory == SavedStatutory(e) && voluntary == SavedVoluntary(e)
    {
      editMode := Some(e.employeeid);
      statutory := SavedStatutory(e);
      voluntary := SavedVoluntary(e);
    }

    /** `handleCancel`: nobody is edited and both lists are empty. */
    method HandleCancel()
      modifies this`editMode, this`statutory, this`voluntary
      ensures editMode.None? && statutory == [] && voluntary == []
    {
      editMode := None;
      statutory := [];
      voluntary := [];
    }

    /**
     * `handleSave`: success ends the edit and asks for a refetch; a failure
     * keeps the edit open. The lists are kept either way, and loading ends.
     */
    method HandleSave(response: Outcome<()>) returns (refetch: bool)
      modifies this`editMode, this`loading
      ensures refetch <==> response.Ok?
      ensures response.Ok? ==> editMode.None?
      ensures response.Failed? ==> editMode == old(editMode)
      ensures !loading
    {
      loading := true;
      if response.Ok? {
        editMode := None;
      }
      refetch := response.Ok?;
      loading := false;
    }

    method SetNewName(name: string)
      modifies this`newDeduction
      ensures newDeduction == old(newDeduction).(name := name)
    {
      newDeduction := newDeduction.(name := name);
    }

    method SetNewAmount(amount: string)
      modifies this`newDeduction
      ensures newDeduction == old(newDeduction).(amount := amount)
    {
      newDeduction := newDeduction.(amount := amount);
    }

    /**
     * `addDeduction`. An empty name is an error that changes nothing.
     * Otherwise the form's line goes to the end of the list its kind names,
     * the other list is untouched, and the form is reset.
     */
    method AddDeduction() returns (error: bool)
      modifies this`statutory, this`voluntary, this`newDeduction
      ensures error <==> old(newDeduction).name == ""
      ensures error ==> statutory == old(statutory) && voluntary == old(voluntary) && newDeduction == old(newDeduction)
      ensures !error ==> newDeduction == EmptyForm
      ensures !error && old(newDeduction).kind == Statutory ==>
        statutory == old(statutory) + [FromForm(old(newDeduction))] && voluntary == old(voluntary)
      ensures !error && old(newDeduction).kind == Voluntary ==>
        voluntary == old(voluntary) + [FromForm(old(newDeduction))] && statutory == old(statutory)
    {
      if newDeduction.name == "" {
        return true;
      }
      var line := FromForm(newDeduction);
      if newDeduction.kind == Statutory {
        statutory := statutory + [line];
      } else {
        voluntary := voluntary + [line];
      }
      newDeduction := EmptyForm;
      error := false;
    }

    /** `removeDeduction(type, index)`: `splice(index, 1)` on that list; the other list is untouched. */
    method RemoveDeduction(kind: Kind, index: int)
      modifies this`statutory, this`voluntary
      ensures kind == Statutory ==> statutory == ListView.SpliceOne(old(statutory), index) && voluntary == old(voluntary)
      ensures kind == Voluntary ==> voluntary == ListView.SpliceOne(old(voluntary), index) && statutory == old(statutory)
      ensures 0 <= index < |old(ListOf(kind))| ==> |ListOf(kind)| == |old(ListOf(kind))| - 1
      ensures 0 <= index < |old(ListOf(kind))| ==>
        multiset(ListOf(kind)) + multiset{old(ListOf(kind))[index]} == multiset(old(ListOf(kind)))
    {
      if kind == Statutory {
        if 0 <= index < |statutory| {
          ListView.SpliceOneReinsert(statutory, index);
        }
        statutory := ListView.SpliceOne(statutory, index);
      } else {
        if 0 <= index < |voluntary| {
          ListView.SpliceOneReinsert(voluntary, index);
        }
        voluntary := ListView.SpliceOne(voluntary, index);
      }
    }

    /**
     * `addStatutoryTemplate`: a template whose name is already in the
     * statutory list is an error that changes nothing; otherwise its line is
     * appended. Either way the statutory names stay distinct.
     */
    method AddStatutoryTemplate(t: Template) returns (error: bool)
      modifies this`statutory
      ensures error <==> HasName(old(statutory), t.name)
      ensures error ==> statutory == old(statutory)
      ensures !error ==> statutory == old(statutory) + [FromTemplate(t)]
      ensures NamesDistinct(old(statutory)) ==> NamesDistinct(statutory)
      ensures HasName(statutory, t.name)
    {
      var r := AddTemplate(statutory, t);
      if NamesDistinct(statutory) {
        AddTemplateKeepsDistinct(statutory, t);
      }
      if r.None? {
        return true;
      }
      assert r.value == statutory + [FromTemplate(t)];
      assert r.value[|statutory|].name == t.name;
      statutory := r.value;
      error := false;
    }

    /** Typing into an amount, name or checkbox of a listed line replaces that field of that line only. */
    method SetLineAmount(kind: Kind, index: int, text: string)
      requires 0 <= index < |ListOf(kind)|
      modifies this`statutory, this`voluntary
      ensures kind == Statutory ==> statutory == old(statutory)[index := old(statutory)[index].(amount := Entered(text))] && voluntary == old(voluntary)
      ensures kind == Voluntary ==> voluntary == old(voluntary)[index := old(voluntary)[index].(amount := Entered(text))] && statutory == old(statutory)
    {
      if kind == Statutory {
        statutory := statutory[index := statutory[index].(amount := Entered(text))];
      } else {
        voluntary := voluntary[index := voluntary[index].(amount := Entered(text))];
      }
    }

    method SetVoluntaryName(index: int, name: string)
      requires 0 <= index < |voluntary|
      modifies this`voluntary
      ensures voluntary == old(voluntary)[index := old(voluntary)[index].(name := name)]
    {
      voluntary := voluntary[index := voluntary[index].(name := name)];
    }

    method SetVoluntaryFixed(index: int, fixed: bool)
      requires 0 <= index < |voluntary|
      modifies this`voluntary
      ensures voluntary == old(voluntary)[index := old(voluntary)[index].(fixedAmount := fixed)]
    {
      voluntary := voluntary[index := voluntary[index].(fixedAmount := fixed)];
    }
  }
}
