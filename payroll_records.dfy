/**
 * The payroll records screen (src/components/Payroll/EmployeeInformation.tsx):
 * one month's records, the search, department and status filters, pages of
 * ten, the eight-column CSV export, the summary cards and the actions menu.
 * Amounts are whole cents.
 */
module EmployeeInformation {
  import opened Wrappers
  import Text
  import ListView
  import Format
  import Months

  /** One payroll record; the nested `employee` and `salary` objects are flattened. */
  datatype PayrollRecord = PayrollRecord(
    name: string,
    employeeId: string,
    department: string,
    baseSalaryUSD: int,
    baseSalaryZIG: int,
    netSalaryUSD: int,
    netSalaryZIG: int,
    status: string)

  const ItemsPerPage: nat := 10
  const AllDepartments: string := "All Departments"
  const AllStatuses: string := "All Statuses"

  /** The name or the employee id holds the term; department and status are "All" or equal. */
  predicate Matches(r: PayrollRecord, term: string, department: string, status: string) {
    (Text.Includes(r.name, term) || Text.Includes(r.employeeId, term))
    && (department == AllDepartments || r.department == department)
    && (status == AllStatuses || r.status == status)
  }

  /** `filteredRecords`: the matching records in their fetched order. */
  function Filtered(records: seq<PayrollRecord>, term: string, department: string, status: string): (r: seq<PayrollRecord>)
    ensures forall x :: x in r <==> x in records && Matches(x, term, department, status)
    ensures ListView.Subsequence(r, records)
  {
    ListView.FilterIsSubsequence(records, (x: PayrollRecord) => Matches(x, term, department, status));
    ListView.Filter(records, (x: PayrollRecord) => Matches(x, term, department, status))
  }

  /** With every select at "All" and an empty search, nothing is filtered out. */
  lemma NoFilterKeepsAll(records: seq<PayrollRecord>)
    ensures Filtered(records, "", AllDepartments, AllStatuses) == records
  {
    forall k | 0 <= k < |records| ensures Matches(records[k], "", AllDepartments, AllStatuses) {
      Text.EmptyTermMatchesAll(records[k].name);
    }
    ListView.FilterAll(records, (x: PayrollRecord) => Matches(x, "", AllDepartments, AllStatuses));
  }

  // ---- export ----

  const CsvHeader: seq<string> :=
    ["Employee ID", "Name", "Department", "Base Salary (USD)", "Base Salary (ZIG)",
     "Net Salary (USD)", "Net Salary (ZIG)", "Status"]

  /** The eight cells of one exported record; the amounts carry two decimals. */
  function CsvCells(r: PayrollRecord): (cells: seq<string>)
    ensures |cells| == |CsvHeader|
  {
    [r.employeeId, r.name, r.department,
     Format.ToFixed2(r.baseSalaryUSD), Format.ToFixed2(r.baseSalaryZIG),
     Format.ToFixed2(r.netSalaryUSD), Format.ToFixed2(r.netSalaryZIG), r.status]
  }

  /** One exported line: the eight cells, quoted. */
  function CsvRow(r: PayrollRecord): string {
    Text.QuotedRow(CsvCells(r))
  }

  function CsvRows(records: seq<PayrollRecord>): (rows: seq<string>)
    ensures |rows| == |records|
    ensures forall k :: 0 <= k < |records| ==> rows[k] == CsvRow(records[k])
  {
    if records == [] then [] else [CsvRow(records[0])] + CsvRows(records[1..])
  }

  /** `exportToCSV`: the header line, then one line per filtered record. */
  function Csv(records: seq<PayrollRecord>, term: string, department: string, status: string): string {
    Text.CsvText(CsvHeader, CsvRows(Filtered(records, term, department, status)))
  }

  /** No text field of the record holds a line break. */
  predicate SingleLine(r: PayrollRecord) {
    '\n' !in r.name && '\n' !in r.employeeId && '\n' !in r.department && '\n' !in r.status
  }

  /** Each amount cell is one line with exactly two digits after the point. */
  lemma AmountCell(cents: int)
    ensures '\n' !in Format.ToFixed2(cents)
    ensures var t := Format.ToFixed2(cents); t[|t| - 3] == '.' && '.' !in t[|t| - 2..]
  {
    var t := Format.ToFixed2(cents);
    assert forall k :: 0 <= k < |t| ==> t[k] != '\n';
    assert forall k :: |t| - 2 <= k < |t| ==> t[k] != '.';
  }

  lemma HeaderOneLine()
    ensures forall k :: 0 <= k < |CsvHeader| ==> '\n' !in CsvHeader[k]
  {
  }

  lemma CsvRowOneLine(r: PayrollRecord)
    requires SingleLine(r)
    ensures '\n' !in CsvRow(r)
  {
    AmountCell(r.baseSalaryUSD);
    AmountCell(r.baseSalaryZIG);
    AmountCell(r.netSalaryUSD);
    AmountCell(r.netSalaryZIG);
    var cells := CsvCells(r);
    forall c | 0 <= c < |cells| ensures '\n' !in cells[c] {
    }
    Text.QuotedRowOneLine(cells);
  }

  /**
   * The export splits back into the header line and exactly one line per
   * filtered record, in order, when no text field holds a line break.
   */
  lemma CsvHasOneLinePerRecord(records: seq<PayrollRecord>, term: string, department: string, status: string)
    requires forall k :: 0 <= k < |records| ==> SingleLine(records[k])
    ensures var f := Filtered(records, term, department, status);
      Text.Split(Csv(records, term, department, status), '\n') == [Text.Join(CsvHeader, ',')] + CsvRows(f)
      && |Text.Split(Csv(records, term, department, status), '\n')| == 1 + |f|
  {
    var f := Filtered(records, term, department, status);
    var rows := CsvRows(f);
    forall k | 0 <= k < |rows| ensures '\n' !in rows[k] {
      assert f[k] in records;
      CsvRowOneLine(f[k]);
    }
    HeaderOneLine();
    Text.CsvLines(CsvHeader, rows);
  }

  // ---- summary cards ----

  function NetUSD(r: PayrollRecord): int { r.netSalaryUSD }
  function NetZIG(r: PayrollRecord): int { r.netSalaryZIG }
  function BaseUSD(r: PayrollRecord): int { r.baseSalaryUSD }
  function DeductionUSD(r: PayrollRecord): int { r.baseSalaryUSD - r.netSalaryUSD }

  /** The four cards, each over the filtered records. */
  datatype Summary = Summary(totalNetUSD: int, totalNetZIG: int, totalDeductionsUSD: int, paid: nat, shown: nat)

  function Summarize(filtered: seq<PayrollRecord>): (s: Summary)
    ensures s.paid <= s.shown == |filtered|
    ensures s.totalDeductionsUSD == ListView.Sum(filtered, BaseUSD) - s.totalNetUSD
  {
    ListView.SumDifference(filtered, BaseUSD, NetUSD, DeductionUSD);
    var paid := ListView.Count(filtered, (r: PayrollRecord) => r.status == "Processed");
    Summary(ListView.Sum(filtered, NetUSD), ListView.Sum(filtered, NetZIG),
      ListView.Sum(filtered, DeductionUSD), paid, |filtered|)
  }

  /** When every record is processed the "Employees Paid" card reads n/n. */
  lemma AllProcessedAllPaid(filtered: seq<PayrollRecord>)
    requires forall k :: 0 <= k < |filtered| ==> filtered[k].status == "Processed"
    ensures Summarize(filtered).paid == Summarize(filtered).shown
  {
    ListView.FilterAll(filtered, (r: PayrollRecord) => r.status == "Processed");
  }

  /** Records whose net never exceeds their base give non-negative total deductions. */
  lemma DeductionsNonNegative(filtered: seq<PayrollRecord>)
    requires forall k :: 0 <= k < |filtered| ==> filtered[k].netSalaryUSD <= filtered[k].baseSalaryUSD
    ensures Summarize(filtered).totalDeductionsUSD >= 0
  {
    ListView.SumDifference(filtered, BaseUSD, NetUSD, DeductionUSD);
    NonNegativeOnList(filtered);
  }

  lemma {:induction false} NonNegativeOnList(s: seq<PayrollRecord>)
    requires forall k :: 0 <= k < |s| ==> s[k].netSalaryUSD <= s[k].baseSalaryUSD
    ensures ListView.Sum(s, DeductionUSD) >= 0
    decreases |s|
  {
    if s != [] {
      NonNegativeOnList(s[1..]);
    }
  }

  /** The "records" count line: "record" for exactly one, "records" otherwise. */
  function RecordsWord(n: nat): string {
    if n == 1 then "record" else "records"
  }

  /** The "Retry Payment" entry of the actions menu. */
  predicate RetryPaymentShown(r: PayrollRecord) {
    r.status == "Failed"
  }

  /** The menu always offers View, Print and Email, and Retry only for a failed payment. */
  function MenuActions(r: PayrollRecord): (actions: seq<string>)
    ensures |actions| == (if r.status == "Failed" then 4 else 3)
    ensures "Retry Payment" in actions <==> r.status == "Failed"
    ensures actions[..3] == ["View Payslip", "Print Payslip", "Email Payslip"]
  {
    ["View Payslip", "Print Payslip", "Email Payslip"] + (if RetryPaymentShown(r) then ["Retry Payment"] else [])
  }

  /** How `processPayroll` ends once the server call has settled. */
  datatype ProcessEnd = ProcessEnd(refetch: bool, rejected: bool)

  /**
   * `toastBound` says whether the name `toast` resolves. The success notice
   * comes before the refetch and the failure notice sits in the catch block,
   * so with the name unbound both paths throw and only the `finally` block
   * still runs; the handler's promise then rejects.
   */
  function ProcessEndWith(response: Outcome<()>, toastBound: bool): ProcessEnd {
    if !toastBound then ProcessEnd(false, true)
    else ProcessEnd(response.Ok?, false)
  }

  /**
   * The file imports no `toast`, so as written a successful run never fetches
   * the records again, unlike the same run with the name imported.
   */
  lemma AsWrittenProcessNeverRefetches(response: Outcome<()>)
    ensures !ProcessEndWith(response, false).refetch && ProcessEndWith(response, false).rejected
    ensures ProcessEndWith(Ok(()), false) != ProcessEndWith(Ok(()), true)
  {
  }

  /** With `toast` imported, the records are fetched again exactly after a successful run, and the handler settles normally. */
  lemma ImportedToastRefetchesOnSuccess(response: Outcome<()>)
    ensures ProcessEndWith(response, true).refetch <==> response.Ok?
    ensures !ProcessEndWith(response, true).rejected
  {
  }

  /** The screen's state. */
  class PayrollRecordsScreen {
    var selectedMonth: Months.YearMonth
    var payrollRecords: seq<PayrollRecord>
    var departments: seq<string>
    var loading: bool
    var searchTerm: string
    var selectedDepartment: string
    var selectedStatus: string
    var currentPage: int

    /** The first render, for the current month. */
    constructor (today: Months.YearMonth)
      ensures selectedMonth == today && payrollRecords == [] && departments == [AllDepartments]
      ensures !loading && searchTerm == "" && selectedDepartment == AllDepartments && selectedStatus == AllStatuses
      ensures currentPage == 1
    {
      selectedMonth := today;
      payrollRecords := [];
      departments := [AllDepartments];
      loading := false;
      searchTerm := "";
      selectedDepartment := AllDepartments;
      selectedStatus := AllStatuses;
      currentPage := 1;
    }

    function FilteredRecords(): seq<PayrollRecord>
      reads this
    {
      Filtered(payrollRecords, searchTerm, selectedDepartment, selectedStatus)
    }

    /** The rows of the current page. */
    function CurrentItems(): (r: seq<PayrollRecord>)
      reads this
      ensures |r| <= ItemsPerPage
      ensures currentPage >= 1 ==>
        r == FilteredRecords()[ListView.Min((currentPage - 1) * ItemsPerPage, |FilteredRecords()|)..ListView.Min(currentPage * ItemsPerPage, |FilteredRecords()|)]
    {
      var f := FilteredRecords();
      if currentPage >= 1 then
        ListView.PageWindow(f, currentPage, ItemsPerPage);
        ListView.Page(f, currentPage, ItemsPerPage)
      else
        ListView.Page(f, currentPage, ItemsPerPage)
    }

    function TotalPages(): nat
      reads this
    {
      ListView.TotalPages(|FilteredRecords()|, ItemsPerPage)
    }

    /** The page controls appear only when the filtered list is longer than one page. */
    predicate PaginationShown()
      reads this
    {
      |FilteredRecords()| > ItemsPerPage
    }

    /** `fetchPayrollRecords` before the response arrives. */
    method StartFetch()
      modifies this`loading
      ensures loading
    {
      loading := true;
    }

    /** The response: fetched records replace the list; a failure keeps it. Either way loading ends. */
    method FinishFetch(response: Outcome<seq<PayrollRecord>>)
      modifies this`payrollRecords, this`loading
      ensures !loading
      ensures payrollRecords == if response.Ok? then response.payload else old(payrollRecords)
    {
      if response.Ok? {
        payrollRecords := response.payload;
      }
      loading := false;
    }

    /** Fetched departments follow "All Departments"; a failed fetch changes nothing. */
    method LoadDepartments(response: Outcome<seq<string>>)
      modifies this`departments
      ensures departments == if response.Ok? then [AllDepartments] + response.payload else old(departments)
    {
      if response.Ok? {
        departments := [AllDepartments] + response.payload;
      }
    }

    /** Picking a month: the page goes back to 1 (the records are then fetched again for it). */
    method SetMonth(month: Months.YearMonth)
      modifies this`selectedMonth, this`currentPage
      ensures selectedMonth == month && currentPage == 1
    {
      selectedMonth := month;
      currentPage := 1;
    }

    method SetSearchTerm(term: string)
      modifies this`searchTerm, this`currentPage
      ensures searchTerm == term && currentPage == 1
    {
      searchTerm := term;
      currentPage := 1;
    }

    method SetDepartment(department: string)
      modifies this`selectedDepartment, this`currentPage
      ensures selectedDepartment == department && currentPage == 1
    {
      selectedDepartment := department;
      currentPage := 1;
    }

    method SetStatus(status: string)
      modifies this`selectedStatus, this`currentPage
      ensures selectedStatus == status && currentPage == 1
    {
      selectedStatus := status;
      currentPage := 1;
    }

    method Paginate(page: int)
      modifies this`currentPage
      ensures currentPage == page
    {
      currentPage := page;
    }

    /**
     * `processPayroll` with `toast` imported: on success the records are
     * fetched again (`refetch`); on failure nothing else happens. Loading is
     * over once the call returns.
     */
    method ProcessPayroll(response: Outcome<()>) returns (refetch: bool)
      modifies this`loading
      ensures refetch <==> response.Ok?
      ensures refetch == ProcessEndWith(response, true).refetch
      ensures !loading
    {
      loading := true;
      refetch := response.Ok?;
      loading := false;
    }
  }

  /** After any filter change the first page shows the first ten matches. */
  lemma FirstPageAfterFilterChange(records: seq<PayrollRecord>, term: string, department: string, status: string)
    ensures var f := Filtered(records, term, department, status);
      ListView.Page(f, 1, ItemsPerPage) == f[..ListView.Min(ItemsPerPage, |f|)]
  {
    var f := Filtered(records, term, department, status);
    ListView.PageWindow(f, 1, ItemsPerPage);
  }
}
