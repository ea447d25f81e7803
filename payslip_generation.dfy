/**
 * The payslip generation dialog (components/Payroll/PayslipGeneration.tsx):
 * pick an employee from a searchable list, fetch that employee's payslip for
 * the fixed period "april 2025", then preview it, download it under a file
 * name built from the employee's name and the period, or e-mail it.
 * Amounts are integer cents. The PDF itself is not part of this model.
 */
module PayslipGeneration {
  import opened Wrappers
  import Text
  import ListView

  /** The period every request and file name uses. */
  const PayrollPeriod: string := "april 2025"

  /** An employee as the list returns it; `name` and `employeeId` may be missing. */
  datatype Employee = Employee(id: string, name: Option<string>, employeeId: Option<string>, email: string)

  /** The fetched payslip figures. */
  datatype PayslipData = PayslipData(baseSalary: int, totalAllowances: int, totalDeductions: int, netSalary: int)

  /** The five things the dialog can render, in the order the render tests them. */
  datatype View = Preview | Picker | Loading | Error | Main

  // ---- search ----

  /** `field?.toLowerCase().includes(term.toLowerCase())`: a missing field never matches. */
  predicate FieldIncludes(field: Option<string>, term: string) {
    field.Some? && Text.Includes(field.value, term)
  }

  predicate Matches(e: Employee, term: string) {
    FieldIncludes(e.name, term) || FieldIncludes(e.employeeId, term)
  }

  /** `filteredEmployees`: the employees whose name or employee id holds the term, in list order. */
  function Filtered(employees: seq<Employee>, term: string): (r: seq<Employee>)
    ensures forall e :: e in r <==> e in employees && Matches(e, term)
    ensures forall e :: e in r ==> e.name.Some? || e.employeeId.Some?
    ensures ListView.Subsequence(r, employees)
  {
    ListView.FilterIsSubsequence(employees, (e: Employee) => Matches(e, term));
    ListView.Filter(employees, (e: Employee) => Matches(e, term))
  }

  /** With an empty term every employee that has a name or an employee id is listed. */
  lemma EmptyTermListsNamed(employees: seq<Employee>, e: Employee)
    requires e in employees && (e.name.Some? || e.employeeId.Some?)
    ensures e in Filtered(employees, "")
  {
    if e.name.Some? {
      Text.EmptyTermMatchesAll(e.name.value);
    } else {
      Text.EmptyTermMatchesAll(e.employeeId.value);
    }
  }

  // ---- what is rendered ----

  /**
   * The render's cascade: the preview when it is asked for and there is an
   * employee and data; else the picker when nobody is selected; else the
   * loading view while data is awaited; else the error view when there is no
   * data; else the main view.
   */
  function ViewOf(previewMode: bool, selected: Option<Employee>, data: Option<PayslipData>, loading: bool): (v: View)
    ensures v == Preview <==> previewMode && selected.Some? && data.Some?
    ensures v == Picker <==> selected.None?
    ensures v == Loading <==> selected.Some? && data.None? && loading
    ensures v == Error <==> selected.Some? && data.None? && !loading
    ensures v == Main <==> !previewMode && selected.Some? && data.Some?
  {
    if previewMode && selected.Some? && data.Some? then Preview
    else if selected.None? then Picker
    else if data.None? && loading then Loading
    else if data.None? then Error
    else Main
  }

  /** Clearing the selection ("Back", "Change Employee") shows the picker whatever else the state holds. */
  lemma ClearingSelectionShowsPicker(previewMode: bool, data: Option<PayslipData>, loading: bool)
    ensures ViewOf(previewMode, None, data, loading) == Picker
  {
  }

  /** Once data is present the loading and error views are gone, also while another fetch is under way. */
  lemma DataHidesLoadingAndError(previewMode: bool, e: Employee, d: PayslipData, loading: bool)
    ensures ViewOf(previewMode, Some(e), Some(d), loading) in {Preview, Main}
  {
  }

  // ---- the download's file name ----

  /** `s.replace(" ", "_")` with a string pattern: only the first space becomes an underscore. */
  function ReplaceFirstSpace(s: string): (r: string)
    ensures |r| == |s|
    ensures ' ' !in s ==> r == s
    ensures ' ' in s ==> var i := Text.IndexOf(s, ' ');
                         r[..i] == s[..i] && r[i] == '_' && r[i + 1..] == s[i + 1..]
  {
    if ' ' in s then
      var i := Text.IndexOf(s, ' ');
      s[..i] + "_" + s[i + 1..]
    else
      s
  }

  /** The number of spaces in a string. */
  function Spaces(s: string): nat {
    multiset(s)[' ']
  }

  /** The replacement removes exactly one space when there is one, and no other. */
  lemma ReplaceFirstSpaceCount(s: string)
    ensures Spaces(ReplaceFirstSpace(s)) == if Spaces(s) == 0 then 0 else Spaces(s) - 1
  {
    if ' ' in s {
      var i := Text.IndexOf(s, ' ');
      assert s == s[..i] + [' '] + s[i + 1..];
      assert ReplaceFirstSpace(s) == s[..i] + ['_'] + s[i + 1..];
    }
  }

  /** `Payslip_${name.replace(" ", "_")}_${period.replace(" ", "_")}.pdf`. */
  function FileName(name: string, period: string): (r: string)
    ensures Text.StartsWith(r, "Payslip_")
    ensures |r| == |name| + |period| + 13
    ensures r[|r| - 4..] == ".pdf"
  {
    "Payslip_" + ReplaceFirstSpace(name) + "_" + ReplaceFirstSpace(period) + ".pdf"
  }

  lemma SpacesAppend(a: string, b: string)
    ensures Spaces(a + b) == Spaces(a) + Spaces(b)
  {
    assert multiset(a + b) == multiset(a) + multiset(b);
  }

  lemma NoSpaceNone(s: string)
    requires ' ' !in s
    ensures Spaces(s) == 0
  {
  }

  /**
   * The file name holds a space exactly when the name or the period has two
   * or more: a second space survives the first-only replacement.
   */
  lemma {:induction false} FileNameSpaces(name: string, period: string)
    ensures ' ' in FileName(name, period) <==> Spaces(name) >= 2 || Spaces(period) >= 2
  {
    var a := ReplaceFirstSpace(name);
    var b := ReplaceFirstSpace(period);
    ReplaceFirstSpaceCount(name);
    ReplaceFirstSpaceCount(period);
    SpacesBetween("Payslip_", a, "_", b, ".pdf");
  }

  /** Fixed text without spaces around two parts adds no spaces of its own. */
  lemma SpacesBetween(p: string, a: string, u: string, b: string, x: string)
    requires ' ' !in p && ' ' !in u && ' ' !in x
    ensures Spaces(p + a + u + b + x) == Spaces(a) + Spaces(b)
  {
    NoSpaceNone(p);
    NoSpaceNone(u);
    NoSpaceNone(x);
    SpacesAppend(p, a);
    SpacesAppend(p + a, u);
    SpacesAppend(p + a + u, b);
    SpacesAppend(p + a + u + b, x);
  }

  /** The period has one space, so it always comes out as "april_2025". */
  lemma PeriodHasOneSpace()
    ensures Spaces(PayrollPeriod) == 1
  {
    var a, sp, b := "april", " ", "2025";
    assert PayrollPeriod == a + sp + b;
    NoSpaceNone(a);
    NoSpaceNone(b);
    SpacesAppend(a, sp);
    SpacesAppend(a + sp, b);
  }

  // ---- the picker's initials ----

  /** `parts.map(n => n[0]).join("")`: an empty part gives `undefined`, which joins as nothing. */
  function FirstChars(parts: seq<string>): (r: string)
    ensures |r| <= |parts|
    decreases |parts|
  {
    if parts == [] then ""
    else (if parts[0] == "" then "" else [parts[0][0]]) + FirstChars(parts[1..])
  }

  /** `name.split(' ').map(n => n[0]).join('')`: the first letter of every word. */
  function Initials(name: string): (r: string)
    ensures |r| <= |Text.Split(name, ' ')|
  {
    FirstChars(Text.Split(name, ' '))
  }

  /** A first name and a surname separated by one space give their two first letters. */
  lemma TwoWordInitials(first: string, last: string)
    requires first != "" && last != "" && ' ' !in first && ' ' !in last
    ensures Initials(first + " " + last) == [first[0], last[0]]
  {
    Text.SplitAfterPart(first, ' ', last);
    assert first + " " + last == first + [' '] + last;
    assert Text.Split(first + " " + last, ' ') == [first, last];
    assert Text.Split(last, ' ') == [last];
    assert FirstChars([last]) == [last[0]] + FirstChars([]);
    assert [first, last][1..] == [last];
  }

  // ---- the dialog's state ----

  class PayslipScreen {
    var loading: bool
    var employees: seq<Employee>
    var selectedEmployee: Option<Employee>
    var payslipData: Option<PayslipData>
    var previewMode: bool
    var emailSent: bool
    var searchTerm: string
    var selectedAction: Option<string>

    /** The first render; the effect on mount starts the employee fetch. */
    constructor ()
      ensures loading && employees == [] && selectedEmployee.None? && payslipData.None?
      ensures !previewMode && !emailSent && searchTerm == "" && selectedAction.None?
    {
      loading := true;
      employees := [];
      selectedEmployee := None;
      payslipData := None;
      previewMode := false;
      emailSent := false;
      searchTerm := "";
      selectedAction := None;
    }

    function Shown(): View
      reads this
    {
      ViewOf(previewMode, selectedEmployee, payslipData, loading)
    }

    function FilteredEmployees(): seq<Employee>
      reads this
    {
      Filtered(employees, searchTerm)
    }

    /** The download's file name; an employee without a name has none (the source would throw). */
    function DownloadName(): (r: Option<string>)
      reads this
      ensures r.Some? <==> selectedEmployee.Some? && selectedEmployee.value.name.Some?
      ensures r.Some? ==> r.value == FileName(selectedEmployee.value.name.value, PayrollPeriod)
    {
      if selectedEmployee.Some? && selectedEmployee.value.name.Some? then
        Some(FileName(selectedEmployee.value.name.value, PayrollPeriod))
      else
        None
    }

    /** `fetchEmployees` once the call returns: a failure keeps the list; loading ends either way. */
    method FinishFetchEmployees(response: Outcome<seq<Employee>>)
      modifies this`employees, this`loading
      ensures !loading
      ensures employees == if response.Ok? then response.payload else old(employees)
    {
      if response.Ok? {
        employees := response.payload;
      }
      loading := false;
    }

    method SetSearchTerm(term: string)
      modifies this`searchTerm
      ensures searchTerm == term
    {
      searchTerm := term;
    }

    /**
     * A click on an employee of the picker; the effect on the selection then
     * starts the payslip fetch. Earlier data and the e-mail flag are kept.
     */
    method SelectEmployee(e: Employee)
      modifies this`selectedEmployee, this`loading
      ensures selectedEmployee == Some(e) && loading
      ensures Shown() == ViewOf(previewMode, Some(e), payslipData, true)
    {
      selectedEmployee := Some(e);
      loading := true;
    }

    /** `fetchPayslipData` once the call returns: a failure keeps whatever data there was. */
    method FinishFetchPayslip(response: Outcome<PayslipData>)
      modifies this`payslipData, this`loading
      ensures !loading
      ensures payslipData == if response.Ok? then Some(response.payload) else old(payslipData)
      ensures selectedEmployee.Some? && response.Failed? && old(payslipData).None? ==> Shown() == Error
    {
      if response.Ok? {
        payslipData := Some(response.payload);
      }
      loading := false;
    }

    /** "Retry" on the error view starts the payslip fetch again. */
    method Retry()
      modifies this`loading
      ensures loading
      ensures selectedEmployee.Some? && payslipData.None? ==> Shown() == Loading
    {
      loading := true;
    }

    /** "Back" and "Change Employee": the selection is cleared and the picker is shown. */
    method ClearSelection()
      modifies this`selectedEmployee
      ensures selectedEmployee.None? && Shown() == Picker
    {
      selectedEmployee := None;
    }

    /** The preview's close button. */
    method ClosePreview()
      modifies this`previewMode
      ensures !previewMode
      ensures selectedEmployee.Some? && payslipData.Some? ==> Shown() == Main
    {
      previewMode := false;
    }

    /**
     * `handleAction`: the action is always recorded; "preview" turns the
     * preview on, "email" starts a send (reported in `sends`), anything else
     * does nothing more.
     */
    method HandleAction(action: string) returns (sends: bool)
      modifies this`selectedAction, this`previewMode, this`loading
      ensures selectedAction == Some(action)
      ensures sends <==> action == "email"
      ensures previewMode == (old(previewMode) || action == "preview")
      ensures loading == (old(loading) || sends)
    {
      selectedAction := Some(action);
      sends := false;
      if action == "preview" {
        previewMode := true;
      } else if action == "email" {
        loading := true;
        sends := true;
      }
    }

    /**
     * A click on an e-mail button (the preview's one first leaves the preview).
     * The button is disabled once a payslip was e-mailed, and then nothing happens.
     */
    method ClickEmail(inPreview: bool) returns (sends: bool)
      modifies this`selectedAction, this`previewMode, this`loading
      ensures sends <==> !emailSent
      ensures emailSent ==> selectedAction == old(selectedAction) && previewMode == old(previewMode)
      ensures !emailSent ==> selectedAction == Some("email") && loading
      ensures !emailSent ==> previewMode == (old(previewMode) && !inPreview)
    {
      if emailSent {
        return false;
      }
      if inPreview {
        previewMode := false;
      }
      sends := HandleAction("email");
    }

    /** `sendPayslipEmail` once the call returns: only a success marks the payslip as sent, and nothing unmarks it. */
    method FinishEmail(response: Outcome<()>)
      modifies this`emailSent, this`loading
      ensures !loading
      ensures emailSent == (old(emailSent) || response.Ok?)
    {
      if response.Ok? {
        emailSent := true;
      }
      loading := false;
    }

    /** "Sending email to ..." is shown while an e-mail action is loading. */
    function SendingNotice(): bool
      reads this
    {
      selectedAction == Some("email") && loading
    }
  }
}
