/**
 * The salary setup screen (components/Payroll/SalarySetup.tsx): a
 * searchable employee list, one of which at a time is edited through a form
 * of a USD and a ZIG base salary (as typed) and lists of allowances and
 * deductions, and a save guarded by a check that both salaries are filled.
 */
module SalarySetup {
  import opened Wrappers
  import Text
  import ListView

  /** An allowance or deduction line, both fields as typed. */
  datatype Item = Item(name: string, amount: string)

  /** An employee record; every field but `id` may be missing. Salaries are kept as their text. */
  datatype Employee = Employee(
    id: string,
    employeeid: Option<string>,
    surname: Option<string>,
    usdSalary: Option<string>,
    zigSalary: Option<string>,
    allowances: Option<seq<Item>>,
    deductions: Option<seq<Item>>)

  /** `formData`: the only four keys the screen ever gives it. */
  datatype FormData = FormData(usdSalary: string, zigSalary: string, allowances: seq<Item>, deductions: seq<Item>)

  const EmptyFormData: FormData := FormData("", "", [], [])
  const EmptyItem: Item := Item("", "")

  /** Which of the two item lists a handler addresses. */
  datatype ItemList = Allowances | Deductions

  // ---- search ----

  /** `field?.toLowerCase().includes(term)`: a missing field gives `undefined`, which is falsy. */
  predicate FieldIncludes(field: Option<string>, term: string) {
    field.Some? && Text.Includes(field.value, term)
  }

  predicate Matches(e: Employee, term: string) {
    FieldIncludes(e.surname, term) || FieldIncludes(e.employeeid, term)
  }

  /** `filteredEmployees`: an employee with neither a surname nor an id never matches, not even the empty term. */
  function Filtered(employees: seq<Employee>, term: string): (r: seq<Employee>)
    ensures forall e :: e in r <==> e in employees && Matches(e, term)
    ensures forall e :: e in r ==> e.surname.Some? || e.employeeid.Some?
    ensures ListView.Subsequence(r, employees)
  {
    ListView.FilterIsSubsequence(employees, (e: Employee) => Matches(e, term));
    ListView.Filter(employees, (e: Employee) => Matches(e, term))
  }

  // ---- the form ----

  /** `value || ""` for a salary, `value || []` for a list: a missing value becomes empty. */
  function LoadForm(e: Employee): (f: FormData)
    ensures f.usdSalary == (if e.usdSalary.Some? then e.usdSalary.value else "")
    ensures f.zigSalary == (if e.zigSalary.Some? then e.zigSalary.value else "")
    ensures f.allowances == (if e.allowances.Some? then e.allowances.value else [])
    ensures f.deductions == (if e.deductions.Some? then e.deductions.value else [])
  {
    FormData(e.usdSalary.GetOr(""), e.zigSalary.GetOr(""), e.allowances.GetOr([]), e.deductions.GetOr([]))
  }

  /** A value read from `formData` by key. */
  datatype FormValue = Text(text: string) | List(items: seq<Item>)

  /** JavaScript truthiness: an empty string is falsy and any array is truthy. */
  predicate Truthy(v: Option<FormValue>) {
    v.Some? && (v.value.List? || v.value.text != "")
  }

  /** `formData[key]`: the four keys the form has, and `undefined` for any other. */
  function Lookup(f: FormData, key: string): (v: Option<FormValue>)
    ensures v.Some? <==> key in {"usd_salary", "zig_salary", "allowances", "deductions"}
  {
    if key == "usd_salary" then Some(Text(f.usdSalary))
    else if key == "zig_salary" then Some(Text(f.zigSalary))
    else if key == "allowances" then Some(List(f.allowances))
    else if key == "deductions" then Some(List(f.deductions))
    else None
  }

  /** The save guard as written: it reads `baseSalaryUSD` and `baseSalaryZIG`. */
  predicate SaveRejectedAsWritten(f: FormData) {
    !Truthy(Lookup(f, "baseSalaryUSD")) || !Truthy(Lookup(f, "baseSalaryZIG"))
  }

  /** No form the screen can build ever passes the guard as written, so the update call is never made. */
  lemma AsWrittenSaveAlwaysRejected(f: FormData)
    ensures SaveRejectedAsWritten(f)
  {
    assert Lookup(f, "baseSalaryUSD").None?;
  }

  /** The intended guard: both salaries of the form must be filled in. */
  predicate SaveRejected(f: FormData) {
    !Truthy(Lookup(f, "usd_salary")) || !Truthy(Lookup(f, "zig_salary"))
  }

  /** The intended guard rejects exactly a form with an empty salary; a fully filled form is sent. */
  lemma SaveGuardIntended(f: FormData)
    ensures SaveRejected(f) <==> f.usdSalary == "" || f.zigSalary == ""
    ensures !SaveRejected(FormData("1000", "12000", [], []))
  {
  }

  /** `addAllowance`/`addDeduction` on one list: `None` (the "required" error) unless both fields are filled. */
  function AddItem(list: seq<Item>, item: Item): (r: Option<seq<Item>>)
    ensures r.None? <==> item.name == "" || item.amount == ""
    ensures r.Some? ==> |r.value| == |list| + 1 && r.value[..|list|] == list && r.value[|list|] == item
  {
    if item.name == "" || item.amount == "" then None else Some(list + [item])
  }

  /** The screen's state. */
  class SalarySetupScreen {
    var employees: seq<Employee>
    var loading: bool
    var searchTerm: string
    /** The `employeeid` of the employee being edited; `None` also for an employee without one. */
    var editMode: Option<string>
    var formData: FormData
    var newAllowance: Item
    var newDeduction: Item

    constructor ()
      ensures employees == [] && !loading && searchTerm == "" && editMode.None?
      ensures formData == EmptyFormData && newAllowance == EmptyItem && newDeduction == EmptyItem
    {
      employees := [];
      loading := false;
      searchTerm := "";
      editMode := None;
      formData := EmptyFormData;
      newAllowance := EmptyItem;
      newDeduction := EmptyItem;
    }

    function FilteredEmployees(): seq<Employee>
      reads this
    {
      Filtered(employees, searchTerm)
    }

    function ListOf(which: ItemList): seq<Item>
      reads this
    {
      match which
      case Allowances => formData.allowances
      case Deductions => formData.deductions
    }

    /** `fetchEmployees` once the call returns: a failure keeps the list; loading ends either way. */
    method FinishFetch(response: Outcome<seq<Employee>>)
      modifies this`employees, this`loading
      ensures !loading
      ensures employees == if response.Ok? then response.payload else old(employees)
    {
      if response.Ok? {
        employees := response.payload;
      }
      loading := false;
    }

    method SetSearchTerm(term: string)
      modifies this`searchTerm
      ensures searchTerm == term
    {
      searchTerm := term;
    }

    /** `handleEdit`: edit this employee, the form loaded with empty defaults for missing values. */
    method HandleEdit(e: Employee)
      modifies this`editMode, this`formData
      ensures editMode == e.employeeid && formData == LoadForm(e)
    {
      editMode := e.employeeid;
      formData := LoadForm(e);
    }

    /** `handleCancel`: nobody is edited and the form is empty. */
    method HandleCancel()
      modifies this`editMode, this`formData
      ensures editMode.None? && formData == EmptyFormData
    {
      editMode := None;
      formData := EmptyFormData;
    }

    method SetUsdSalary(text: string)
      modifies this`formData
      ensures formData == old(formData).(usdSalary := text)
    {
      formData := formData.(usdSalary := text);
    }

    method SetZigSalary(text: string)
      modifies this`formData
      ensures formData == old(formData).(zigSalary := text)
    {
      formData := formData.(zigSalary := text);
    }

    method SetNewAllowance(item: Item)
      modifies this`newAllowance
      ensures newAllowance == item
    {
      newAllowance := item;
    }

    method SetNewDeduction(item: Item)
      modifies this`newDeduction
      ensures newDeduction == item
    {
      newDeduction := item;
    }

    /**
     * `handleSave` with the intended guard. A form with an empty salary is an
     * error and no call is made. Otherwise the update is sent; success ends
     * the edit and asks for a refetch, a failure keeps the edit open.
     */
    method HandleSave(response: Outcome<()>) returns (called: bool, refetch: bool)
      modifies this`editMode, this`loading
      ensures called <==> !SaveRejected(formData)
      ensures refetch <==> called && response.Ok?
      ensures refetch ==> editMode.None?
      ensures !refetch ==> editMode == old(editMode)
      ensures called ==> !loading
      ensures !called ==> loading == old(loading)
    {
      if SaveRejected(formData) {
        return false, false;
      }
      loading := true;
      called := true;
      if response.Ok? {
        editMode := None;
      }
      refetch := response.Ok?;
      loading := false;
    }

    /**
     * `addAllowance`: with a name and an amount, the line goes to the end of
     * the allowances and the input is cleared; the deductions are untouched.
     * Otherwise nothing changes.
     */
    method AddAllowance() returns (error: bool)
      modifies this`formData, this`newAllowance
      ensures error <==> old(newAllowance).name == "" || old(newAllowance).amount == ""
      ensures error ==> formData == old(formData) && newAllowance == old(newAllowance)
      ensures !error ==> formData == old(formData).(allowances := old(formData).allowances + [old(newAllowance)])
      ensures !error ==> newAllowance == EmptyItem
    {
      var r := AddItem(formData.allowances, newAllowance);
      if r.None? {
        return true;
      }
      assert r.value == formData.allowances + [newAllowance];
      formData := formData.(allowances := r.value);
      newAllowance := EmptyItem;
      error := false;
    }

    /** `addDeduction`: the same on the deductions, leaving the allowances untouched. */
    method AddDeduction() returns (error: bool)
      modifies this`formData, this`newDeduction
      ensures error <==> old(newDeduction).name == "" || old(newDeduction).amount == ""
      ensures error ==> formData == old(formData) && newDeduction == old(newDeduction)
      ensures !error ==> formData == old(formData).(deductions := old(formData).deductions + [old(newDeduction)])
      ensures !error ==> newDeduction == EmptyItem
    {
      var r := AddItem(formData.deductions, newDeduction);
      if r.None? {
        return true;
      }
      assert r.value == formData.deductions + [newDeduction];
      formData := formData.(deductions := r.value);
      newDeduction := EmptyItem;
      error := false;
    }

    /** `removeItem(type, index)`: `splice(index, 1)` on that list only. */
    method RemoveItem(which: ItemList, index: int)
      modifies this`formData
      ensures which == Allowances ==> formData == old(formData).(allowances := ListView.SpliceOne(old(formData).allowances, index))
      ensures which == Deductions ==> formData == old(formData).(deductions := ListView.SpliceOne(old(formData).deductions, index))
      ensures 0 <= index < |old(ListOf(which))| ==> |ListOf(which)| == |old(ListOf(which))| - 1
      ensures 0 <= index < |old(ListOf(which))| ==>
        multiset(ListOf(which)) + multiset{old(ListOf(which))[index]} == multiset(old(ListOf(which)))
    {
      if which == Allowances {
        if 0 <= index < |formData.allowances| {
          ListView.SpliceOneReinsert(formData.allowances, index);
        }
        formData := formData.(allowances := ListView.SpliceOne(formData.allowances, index));
      } else {
        if 0 <= index < |formData.deductions| {
          ListView.SpliceOneReinsert(formData.deductions, index);
        }
        formData := formData.(deductions := ListView.SpliceOne(formData.deductions, index));
      }
    }
  }
}
