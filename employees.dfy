/**
 * The employee list of the HR module (src/components/HR/employees/Employees.tsx):
 * the department options taken from the fetched list, the search, department
 * and status filters, pages of ten, the CSV export and the status label.
 */
module Employees {
  import opened Wrappers
  import Text
  import ListView

  datatype Employee = Employee(
    firstname: string,
    surname: string,
    email: string,
    position: string,
    department: string,
    phone: string,
    isActive: bool,
    onLeave: bool)

  const ItemsPerPage: nat := 10
  const AllDepartments: string := "All Departments"
  const AllStatus: string := "All Status"

  /** Index of the first `x` in `s`. */
  function FirstIndex(s: seq<string>, x: string): (i: nat)
    requires x in s
    ensures i < |s| && s[i] == x && x !in s[..i]
  {
    if s[0] == x then 0 else 1 + FirstIndex(s[1..], x)
  }

  /** `[...new Set(s)]`: the distinct values of `s`, each where it first appears. */
  function Distinct(s: seq<string>): (r: seq<string>)
    ensures forall x :: x in r <==> x in s
    ensures forall i, j :: 0 <= i < j < |r| ==> r[i] != r[j]
    ensures |r| <= |s|
    decreases |s|
  {
    if s == [] then []
    else
      var r := Distinct(s[..|s| - 1]);
      if s[|s| - 1] in r then r else r + [s[|s| - 1]]
  }

  /** Extending a list does not move the first appearance of a value already in it. */
  lemma {:induction false} FirstIndexExtend(s: seq<string>, x: string, y: string)
    requires y in s
    ensures FirstIndex(s + [x], y) == FirstIndex(s, y)
  {
    var i := FirstIndex(s, y);
    assert (s + [x])[i] == y;
    assert (s + [x])[..i] == s[..i];
    FirstIndexUnique(s + [x], y, i);
  }

  /** The first `y` is the one with no `y` before it. */
  lemma {:induction false} FirstIndexUnique(s: seq<string>, y: string, i: nat)
    requires i < |s| && s[i] == y && y !in s[..i]
    ensures FirstIndex(s, y) == i
  {
    if i > 0 {
      assert s[0] == s[..i][0];
      assert s[1..][..i - 1] == s[1..i];
      assert forall z :: z in s[1..i] ==> z in s[..i];
      FirstIndexUnique(s[1..], y, i - 1);
    }
  }

  /** The distinct values come in the order of their first appearance. */
  lemma {:induction false} DistinctFirstAppearanceOrder(s: seq<string>)
    ensures forall i, j :: 0 <= i < j < |Distinct(s)| ==>
      FirstIndex(s, Distinct(s)[i]) < FirstIndex(s, Distinct(s)[j])
    decreases |s|
  {
    if s != [] {
      var init, x := s[..|s| - 1], s[|s| - 1];
      assert s == init + [x];
      DistinctFirstAppearanceOrder(init);
      var r0 := Distinct(init);
      var r := Distinct(s);
      forall i, j | 0 <= i < j < |r|
        ensures FirstIndex(s, r[i]) < FirstIndex(s, r[j])
      {
        FirstIndexExtend(init, x, r[i]);
        if j < |r0| {
          FirstIndexExtend(init, x, r[j]);
        } else {
          assert r[j] == x && x !in init;
          assert s[..|init|] == init;
          FirstIndexUnique(s, x, |init|);
        }
      }
    }
  }

  /** The department of every employee, in list order. */
  function DepartmentsOf(emps: seq<Employee>): (r: seq<string>)
    ensures |r| == |emps|
    ensures forall k :: 0 <= k < |emps| ==> r[k] == emps[k].department
  {
    if emps == [] then [] else [emps[0].department] + DepartmentsOf(emps[1..])
  }

  /** The department select: "All Departments" first, then each fetched department once. */
  function DepartmentOptions(emps: seq<Employee>): (r: seq<string>)
    ensures |r| >= 1 && r[0] == AllDepartments
    ensures forall d :: d in r[1..] <==> exists k :: 0 <= k < |emps| && emps[k].department == d
    ensures forall i, j :: 1 <= i < j < |r| ==> r[i] != r[j]
  {
    var ds := DepartmentsOf(emps);
    var r := [AllDepartments] + Distinct(ds);
    assert r[1..] == Distinct(ds);
    forall d | d in r[1..] ensures exists k :: 0 <= k < |emps| && emps[k].department == d {
      var k :| 0 <= k < |ds| && ds[k] == d;
    }
    r
  }

  /** The search: the term, lower-cased, occurs in the full name, the email or the position. */
  predicate MatchesSearch(e: Employee, term: string) {
    Text.Includes(e.firstname + " " + e.surname, term)
    || Text.Includes(e.email, term)
    || Text.Includes(e.position, term)
  }

  predicate MatchesDepartment(e: Employee, department: string) {
    department == AllDepartments || e.department == department
  }

  /** The status select; "Terminated", like any other unlisted value, matches no one. */
  predicate MatchesStatus(e: Employee, status: string) {
    status == AllStatus
    || (status == "Active" && e.isActive)
    || (status == "Inactive" && !e.isActive)
    || (status == "On Leave" && e.onLeave)
  }

  predicate Matches(e: Employee, term: string, department: string, status: string) {
    MatchesSearch(e, term) && MatchesDepartment(e, department) && MatchesStatus(e, status)
  }

  /** `filteredEmployees`. */
  function Filtered(emps: seq<Employee>, term: string, department: string, status: string): seq<Employee> {
    ListView.Filter(emps, (e: Employee) => Matches(e, term, department, status))
  }

  /**
   * The filtered list keeps, in their original order, exactly the employees
   * that pass all three tests.
   */
  lemma FilteredIsOrderedSelection(emps: seq<Employee>, term: string, department: string, status: string)
    ensures forall e :: e in Filtered(emps, term, department, status) <==> e in emps && Matches(e, term, department, status)
    ensures ListView.Subsequence(Filtered(emps, term, department, status), emps)
  {
    ListView.FilterIsSubsequence(emps, (e: Employee) => Matches(e, term, department, status));
  }

  /** With no search term and both selects at "All", every employee is listed, in order. */
  lemma NoFilterKeepsAll(emps: seq<Employee>)
    ensures Filtered(emps, "", AllDepartments, AllStatus) == emps
  {
    var p := (e: Employee) => Matches(e, "", AllDepartments, AllStatus);
    forall k | 0 <= k < |emps| ensures p(emps[k]) {
      Text.EmptyTermMatchesAll(emps[k].firstname + " " + emps[k].surname);
    }
    ListView.FilterAll(emps, p);
  }

  /** The "Terminated" option lists no one. */
  lemma TerminatedListsNoOne(emps: seq<Employee>, term: string, department: string)
    ensures Filtered(emps, term, department, "Terminated") == []
  {
    ListView.FilterNone(emps, (e: Employee) => Matches(e, term, department, "Terminated"));
  }

  /** The badge in the table: Active, else On Leave, else Inactive. */
  function StatusLabel(e: Employee): string {
    if e.isActive then "Active" else if e.onLeave then "On Leave" else "Inactive"
  }

  /** The CSV status column knows only Active and Inactive. */
  function CsvStatus(e: Employee): string {
    if e.isActive then "Active" else "Inactive"
  }

  /** An employee on leave is labelled "On Leave" in the table but "Inactive" in the export. */
  lemma LabelAndExportDisagreeOnLeave(e: Employee)
    ensures StatusLabel(e) == CsvStatus(e) <==> e.isActive || !e.onLeave
  {
  }

  const CsvHeader: seq<string> := ["Name", "Position", "Department", "Email", "Phone", "Status"]

  /** One exported line: six quoted cells. */
  function CsvRow(e: Employee): string {
    Text.QuotedRow([e.firstname + " " + e.surname, e.position, e.department, e.email, e.phone, CsvStatus(e)])
  }

  function CsvRows(emps: seq<Employee>): (r: seq<string>)
    ensures |r| == |emps|
    ensures forall k :: 0 <= k < |emps| ==> r[k] == CsvRow(emps[k])
  {
    if emps == [] then [] else [CsvRow(emps[0])] + CsvRows(emps[1..])
  }

  /** `exportToCSV`: the header line, then one line per filtered employee. */
  function Csv(emps: seq<Employee>, term: string, department: string, status: string): string {
    Text.CsvText(CsvHeader, CsvRows(Filtered(emps, term, department, status)))
  }

  /** No field of the employee holds a line break. */
  predicate SingleLine(e: Employee) {
    '\n' !in e.firstname && '\n' !in e.surname && '\n' !in e.position
    && '\n' !in e.department && '\n' !in e.email && '\n' !in e.phone
  }

  /** The header cells joined by commas. */
  lemma CsvHeaderLine()
    ensures Text.Join(CsvHeader, ',') == "Name,Position,Department,Email,Phone,Status"
  {
  }

  /** A row built from single-line fields is a single line. */
  lemma CsvRowOneLine(e: Employee)
    requires SingleLine(e)
    ensures '\n' !in CsvRow(e)
  {
    var cells := [e.firstname + " " + e.surname, e.position, e.department, e.email, e.phone, CsvStatus(e)];
    forall c | 0 <= c < |cells| ensures '\n' !in cells[c] {
    }
    Text.QuotedRowOneLine(cells);
  }

  /**
   * The export splits back into the header line and then exactly one line per
   * filtered employee, in order, provided no field holds a line break.
   */
  lemma CsvHasOneLinePerEmployee(emps: seq<Employee>, term: string, department: string, status: string)
    requires forall k :: 0 <= k < |emps| ==> SingleLine(emps[k])
    ensures var f := Filtered(emps, term, department, status);
      Text.Split(Csv(emps, term, department, status), '\n')
        == ["Name,Position,Department,Email,Phone,Status"] + CsvRows(f)
      && |Text.Split(Csv(emps, term, department, status), '\n')| == 1 + |f|
  {
    var f := Filtered(emps, term, department, status);
    var rows := CsvRows(f);
    forall k | 0 <= k < |rows| ensures '\n' !in rows[k] {
      assert f[k] in emps;
      CsvRowOneLine(f[k]);
    }
    Text.CsvLines(CsvHeader, rows);
    CsvHeaderLine();
  }

  /** The screen's state. */
  class EmployeesScreen {
    var allEmployees: seq<Employee>
    var departments: seq<string>
    var loading: bool
    var searchTerm: string
    var selectedDepartment: string
    var selectedStatus: string
    var currentPage: int

    constructor ()
      ensures allEmployees == [] && departments == [] && !loading
      ensures searchTerm == "" && selectedDepartment == AllDepartments && selectedStatus == AllStatus
      ensures currentPage == 1
    {
      allEmployees := [];
      departments := [];
      loading := false;
      searchTerm := "";
      selectedDepartment := AllDepartments;
      selectedStatus := AllStatus;
      currentPage := 1;
    }

    /** The list currently shown by the filters. */
    function FilteredEmployees(): seq<Employee>
      reads this
    {
      Filtered(allEmployees, searchTerm, selectedDepartment, selectedStatus)
    }

    /** The rows of the current page. */
    function CurrentItems(): (r: seq<Employee>)
      reads this
      ensures |r| <= ItemsPerPage
    {
      ListView.Page(FilteredEmployees(), currentPage, ItemsPerPage)
    }

    function TotalPages(): nat
      reads this
    {
      ListView.TotalPages(|FilteredEmployees()|, ItemsPerPage)
    }

    /** `fetchEmployees` before the response arrives. */
    method StartFetch()
      modifies this`loading
      ensures loading
    {
      loading := true;
    }

    /**
     * The response: a fetched list replaces the employees and the department
     * options; a failed call only clears `loading`.
     */
    method FinishFetch(response: Outcome<seq<Employee>>)
      modifies this`allEmployees, this`departments, this`loading
      ensures !loading
      ensures response.Ok? ==> allEmployees == response.payload && departments == DepartmentOptions(response.payload)
      ensures response.Failed? ==> allEmployees == old(allEmployees) && departments == old(departments)
    {
      if response.Ok? {
        allEmployees := response.payload;
        departments := DepartmentOptions(response.payload);
      }
      loading := false;
    }

    /** Typing in the search box: the term changes and the page goes back to 1. */
    method SetSearchTerm(term: string)
      modifies this`searchTerm, this`currentPage
      ensures searchTerm == term && currentPage == 1
    {
      searchTerm := term;
      currentPage := 1;
    }

    /** Choosing a department: the page goes back to 1. */
    method SetDepartment(department: string)
      modifies this`selectedDepartment, this`currentPage
      ensures selectedDepartment == department && currentPage == 1
    {
      selectedDepartment := department;
      currentPage := 1;
    }

    /** Choosing a status: the page goes back to 1. */
    method SetStatus(status: string)
      modifies this`selectedStatus, this`currentPage
      ensures selectedStatus == status && currentPage == 1
    {
      selectedStatus := status;
      currentPage := 1;
    }

    /** `paginate(n)`: the numbered buttons, and Previous/Next with `currentPage ∓ 1`. */
    method Paginate(page: int)
      modifies this`currentPage
      ensures currentPage == page
    {
      currentPage := page;
    }

    /** The pagination bar is rendered only when the filtered list is longer than a page. */
    predicate PaginationShown()
      reads this
    {
      |FilteredEmployees()| > ItemsPerPage
    }

    /** "Previous" is disabled on page 1; "Next" only when the page equals the page count. */
    function PreviousDisabled(): bool
      reads this
    {
      currentPage == 1
    }

    function NextDisabled(): bool
      reads this
    {
      currentPage == TotalPages()
    }
  }

  /**
   * The pagination bar is rendered only for more than a page of employees.
   * Without it the table is the whole filtered list on page 1, which the
   * filter setters return to, and there is at most one page; with it there
   * are at least two pages, so on page 1 "Next" is enabled and the first
   * page is full.
   */
  lemma PaginationControls(s: seq<Employee>)
    ensures |s| <= ItemsPerPage ==> ListView.Page(s, 1, ItemsPerPage) == s && ListView.TotalPages(|s|, ItemsPerPage) <= 1
    ensures |s| > ItemsPerPage ==> ListView.TotalPages(|s|, ItemsPerPage) >= 2 && |ListView.Page(s, 1, ItemsPerPage)| == ItemsPerPage
  {
    ListView.PageWindow(s, 1, ItemsPerPage);
    ListView.TotalPagesBounds(|s|, ItemsPerPage);
  }
}
