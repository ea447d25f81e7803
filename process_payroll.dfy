/**
 * The payroll run screen (components/Payroll/ProcessPayroll.tsx): the month
 * picker with its arrows, the run banner and its buttons, the summary cards
 * over every employee, the ZIG figures at a fixed rate of 12, the search and
 * department filters, and the confirm-guarded process and approve actions.
 * Amounts are whole cents.
 */
module ProcessPayroll {
  import opened Wrappers
  import Text
  import ListView
  import Format
  import Months

  /** A payroll run for the month, as the server reports it. */
  datatype PayrollRun = PayrollRun(id: string, status: string)

  /** An employee row; the amounts may be missing from the response. */
  datatype PayrollEmployee = PayrollEmployee(
    name: string,
    employeeId: string,
    department: string,
    grossSalary: Option<int>,
    totalDeductions: Option<int>,
    netSalary: Option<int>,
    status: string)

  const AllDepartments: string := "All Departments"

  /** The fixed USD to ZIG factor of every secondary figure. */
  const ZigPerUsd: int := 12

  /** The name or the employee id holds the term, and the department is "All" or equal. */
  predicate Matches(e: PayrollEmployee, term: string, department: string) {
    (Text.Includes(e.name, term) || Text.Includes(e.employeeId, term))
    && (department == AllDepartments || e.department == department)
  }

  /** `filteredEmployees`: the matching rows in their fetched order. */
  function Filtered(employees: seq<PayrollEmployee>, term: string, department: string): (r: seq<PayrollEmployee>)
    ensures forall x :: x in r <==> x in employees && Matches(x, term, department)
    ensures ListView.Subsequence(r, employees)
  {
    ListView.FilterIsSubsequence(employees, (x: PayrollEmployee) => Matches(x, term, department));
    ListView.Filter(employees, (x: PayrollEmployee) => Matches(x, term, department))
  }

  // ---- summary cards ----

  /** `value || 0`: a missing amount, or a zero one, counts as 0. */
  function OrZero(v: Option<int>): int {
    v.GetOr(0)
  }

  function Gross(e: PayrollEmployee): int { OrZero(e.grossSalary) }
  function Deductions(e: PayrollEmployee): int { OrZero(e.totalDeductions) }
  function Net(e: PayrollEmployee): int { OrZero(e.netSalary) }

  datatype Summary = Summary(
    totalGross: int,
    totalDeductions: int,
    totalNet: int,
    totalEmployees: nat,
    processedEmployees: nat)

  /** `summary`: taken over every employee of the month, whatever the filters. */
  function Summarize(employees: seq<PayrollEmployee>): (s: Summary)
    ensures s.totalEmployees == |employees|
    ensures s.processedEmployees <= s.totalEmployees
  {
    Summary(
      ListView.Sum(employees, Gross),
      ListView.Sum(employees, Deductions),
      ListView.Sum(employees, Net),
      |employees|,
      ListView.Count(employees, (e: PayrollEmployee) => e.status == "Processed"))
  }

  /** The cards do not follow the filters: their employee count is never below the rows shown. */
  lemma SummaryIgnoresFilters(employees: seq<PayrollEmployee>, term: string, department: string)
    ensures |Filtered(employees, term, department)| <= Summarize(employees).totalEmployees
  {
  }

  /** An employee with no amounts adds nothing to any total. */
  lemma {:induction false} MissingAmountsAddNothing(employees: seq<PayrollEmployee>, e: PayrollEmployee)
    requires e.grossSalary.None? && e.totalDeductions.None? && e.netSalary.None?
    ensures var s, t := Summarize(employees), Summarize(employees + [e]);
      t.totalGross == s.totalGross && t.totalDeductions == s.totalDeductions && t.totalNet == s.totalNet
      && t.totalEmployees == s.totalEmployees + 1
  {
    SumAppendOne(employees, e, Gross);
    SumAppendOne(employees, e, Deductions);
    SumAppendOne(employees, e, Net);
  }

  lemma {:induction false} SumAppendOne(s: seq<PayrollEmployee>, e: PayrollEmployee, f: PayrollEmployee -> int)
    ensures ListView.Sum(s + [e], f) == ListView.Sum(s, f) + f(e)
    decreases |s|
  {
    if s == [] {
      assert s + [e] == [e];
    } else {
      assert (s + [e])[1..] == s[1..] + [e];
      SumAppendOne(s[1..], e, f);
    }
  }

  // ---- ZIG figures ----

  /** Every secondary figure: the USD amount times 12, in the ZIG format. */
  function ZigFigure(usd: int): string {
    Format.FormatZig(ZigPerUsd * usd)
  }

  function GrossZig(e: PayrollEmployee): int { ZigPerUsd * Gross(e) }

  /**
   * The ZIG figure reads back as twelve times the USD amount, and the total
   * card's ZIG figure is the sum of the rows' ZIG amounts.
   */
  lemma ZigFigures(employees: seq<PayrollEmployee>, usd: int)
    ensures Text.RemoveSpaces(ZigFigure(usd)[4..]) == Format.ToFixed2(12 * usd)
    ensures ZigPerUsd * Summarize(employees).totalGross == ListView.Sum(employees, GrossZig)
  {
    Format.FormatZigRoundTrip(ZigPerUsd * usd);
    ListView.SumScale(employees, Gross, GrossZig, ZigPerUsd);
  }

  // ---- month picker ----

  /** The "next month" button: disabled when the selected `"yyyy-MM"` is not below the current one. */
  predicate NextDisabled(selected: Months.YearMonth, now: Months.YearMonth)
    requires Months.Valid(selected) && 0 <= selected.year <= 9999
    requires Months.Valid(now) && 0 <= now.year <= 9999
  {
    !Months.StrLess(Months.IsoText(selected), Months.IsoText(now))
  }

  /** The button is disabled exactly from the current month onwards. */
  lemma NextDisabledIff(selected: Months.YearMonth, now: Months.YearMonth)
    requires Months.Valid(selected) && 0 <= selected.year <= 9999
    requires Months.Valid(now) && 0 <= now.year <= 9999
    ensures NextDisabled(selected, now) <==> !Months.Before(selected, now)
    ensures NextDisabled(now, now)
  {
    Months.IsoTextOrder(selected, now);
    Months.IsoTextOrder(now, now);
  }

  // ---- banner ----

  datatype Tone = Green | Yellow | Red

  /** The banner is shown only for a run: green when processed, yellow when pending, red otherwise. */
  function BannerTone(run: Option<PayrollRun>): (t: Option<Tone>)
    ensures t.None? <==> run.None?
    ensures t == Some(Green) <==> run.Some? && run.value.status == "Processed"
    ensures t == Some(Yellow) <==> run.Some? && run.value.status == "Pending"
  {
    match run
    case None => None
    case Some(r) => Some(if r.status == "Processed" then Green else if r.status == "Pending" then Yellow else Red)
  }

  /** "Export Bank File", "Approve Payroll" and the statutory reports need a processed run. */
  predicate ExportAndApproveShown(run: Option<PayrollRun>) {
    run.Some? && run.value.status == "Processed"
  }

  /** "Process Payroll" sits inside the banner, so it needs a run, and that run must be a draft. */
  predicate ProcessShown(run: Option<PayrollRun>) {
    run.Some? && (run.None? || run.value.status == "Draft")
  }

  /**
   * Without a run nothing is offered, although the button's own condition
   * allows it; a draft banner is red, and process and approve never appear
   * together.
   */
  lemma BannerButtons(run: Option<PayrollRun>)
    ensures !ProcessShown(None) && !ExportAndApproveShown(None)
    ensures ProcessShown(run) <==> run.Some? && run.value.status == "Draft"
    ensures ProcessShown(run) ==> BannerTone(run) == Some(Red)
    ensures !(ProcessShown(run) && ExportAndApproveShown(run))
  {
  }

  /** The screen's state. */
  class PayrollRunScreen {
    var selectedMonth: Months.YearMonth
    var payrollRun: Option<PayrollRun>
    var employees: seq<PayrollEmployee>
    var departments: seq<string>
    var loading: bool
    var processing: bool
    var searchTerm: string
    var selectedDepartment: string

    /** The first render, for the current month. */
    constructor (today: Months.YearMonth)
      ensures selectedMonth == today && payrollRun.None? && employees == [] && departments == [AllDepartments]
      ensures !loading && !processing && searchTerm == "" && selectedDepartment == AllDepartments
    {
      selectedMonth := today;
      payrollRun := None;
      employees := [];
      departments := [AllDepartments];
      loading := false;
      processing := false;
      searchTerm := "";
      selectedDepartment := AllDepartments;
    }

    function FilteredEmployees(): seq<PayrollEmployee>
      reads this
    {
      Filtered(employees, searchTerm, selectedDepartment)
    }

    /** The run and the employee list arrive together; a failure keeps both. Loading ends either way. */
    method FinishFetch(response: Outcome<(Option<PayrollRun>, seq<PayrollEmployee>)>)
      modifies this`payrollRun, this`employees, this`loading
      ensures !loading
      ensures response.Ok? ==> payrollRun == response.payload.0 && employees == response.payload.1
      ensures response.Failed? ==> payrollRun == old(payrollRun) && employees == old(employees)
    {
      if response.Ok? {
        payrollRun := response.payload.0;
        employees := response.payload.1;
      }
      loading := false;
    }

    /** Fetched departments follow "All Departments"; a failed fetch changes nothing. */
    method LoadDepartments(response: Outcome<seq<string>>)
      modifies this`departments
      ensures departments == if response.Ok? then [AllDepartments] + response.payload else old(departments)
    {
      if response.Ok? {
        departments := [AllDepartments] + response.payload;
      }
    }

    /** The ← arrow. */
    method PreviousMonth()
      requires Months.Valid(selectedMonth)
      modifies this`selectedMonth
      ensures selectedMonth == Months.Prev(old(selectedMonth))
    {
      selectedMonth := Months.Prev(selectedMonth);
    }

    /** The → arrow: a click on the disabled button does nothing. */
    method NextMonth(now: Months.YearMonth)
      requires Months.Valid(selectedMonth) && 0 <= selectedMonth.year <= 9999
      requires Months.Valid(now) && 0 <= now.year <= 9999
      modifies this`selectedMonth
      ensures Months.Before(old(selectedMonth), now) ==> selectedMonth == Months.Next(old(selectedMonth))
      ensures !Months.Before(old(selectedMonth), now) ==> selectedMonth == old(selectedMonth)
    {
      NextDisabledIff(selectedMonth, now);
      if !NextDisabled(selectedMonth, now) {
        selectedMonth := Months.Next(selectedMonth);
      }
    }

    method SetSearchTerm(term: string)
      modifies this`searchTerm
      ensures searchTerm == term
    {
      searchTerm := term;
    }

    method SetDepartment(department: string)
      modifies this`selectedDepartment
      ensures selectedDepartment == department
    {
      selectedDepartment := department;
    }

    /**
     * `handleProcessPayroll`. A declined confirm dialog changes nothing and
     * calls nothing. Otherwise the server is called; its run replaces the
     * shown one and a refetch follows on success, and `processing` is false
     * once the call returns.
     */
    method HandleProcessPayroll(confirmed: bool, response: Outcome<Option<PayrollRun>>) returns (called: bool, refetch: bool)
      modifies this`payrollRun, this`processing
      ensures called == confirmed && (refetch <==> confirmed && response.Ok?)
      ensures !confirmed ==> payrollRun == old(payrollRun) && processing == old(processing)
      ensures confirmed ==> !processing
      ensures confirmed && response.Ok? ==> payrollRun == response.payload
      ensures response.Failed? ==> payrollRun == old(payrollRun)
    {
      if !confirmed {
        return false, false;
      }
      processing := true;
      called := true;
      if response.Ok? {
        payrollRun := response.payload;
      }
      refetch := response.Ok?;
      processing := false;
    }

    /** `handleApprovePayroll`: nothing without confirmation; a refetch after a successful approval. */
    method HandleApprovePayroll(confirmed: bool, response: Outcome<()>) returns (called: bool, refetch: bool)
      ensures called == confirmed
      ensures refetch <==> confirmed && response.Ok?
    {
      if !confirmed {
        return false, false;
      }
      called := true;
      refetch := response.Ok?;
    }
  }
}
