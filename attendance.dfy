/**
 * The attendance screen (components/HR/Attendence.tsx): search and
 * department filters, pages of ten, a seven-column CSV export and the
 * summary cards computed over the filtered records.
 */
module Attendance {
  import opened Wrappers
  import Text
  import ListView

  /** One attendance record; a login or logout time may be missing (`null`). */
  datatype AttendanceRecord = AttendanceRecord(
    employeeName: string,
    employeeId: string,
    department: string,
    date: string,
    loginTime: Option<string>,
    logoutTime: Option<string>,
    status: string)

  const ItemsPerPage: nat := 10
  const AllDepartments: string := "All Departments"

  /** The name or the employee id holds the term, and the department select is at "All" or equal. */
  predicate Matches(r: AttendanceRecord, term: string, department: string) {
    (Text.Includes(r.employeeName, term) || Text.Includes(r.employeeId, term))
    && (department == AllDepartments || r.department == department)
  }

  /** `filteredRecords`; the selected time range is not an input. */
  function Filtered(records: seq<AttendanceRecord>, term: string, department: string): (r: seq<AttendanceRecord>)
    ensures forall x :: x in r <==> x in records && Matches(x, term, department)
    ensures ListView.Subsequence(r, records)
  {
    ListView.FilterIsSubsequence(records, (x: AttendanceRecord) => Matches(x, term, department));
    ListView.Filter(records, (x: AttendanceRecord) => Matches(x, term, department))
  }

  /** The time shown in the table: a missing or empty time reads `--:--`. */
  function TimeCell(t: Option<string>): (r: string)
    ensures t.Some? && t.value != "" ==> r == t.value
    ensures t.None? || t.value == "" ==> r == "--:--"
  {
    if t.Some? && t.value != "" then t.value else "--:--"
  }

  /** The same time in the export, where a missing one is written `null`. */
  function CsvTime(t: Option<string>): string {
    match t
    case Some(v) => v
    case None => "null"
  }

  const CsvHeader: seq<string> := ["Name", "Employee ID", "Department", "Date", "Login Time", "Logout Time", "Status"]

  function CsvCells(r: AttendanceRecord): (cells: seq<string>)
    ensures |cells| == |CsvHeader|
  {
    [r.employeeName, r.employeeId, r.department, r.date, CsvTime(r.loginTime), CsvTime(r.logoutTime), r.status]
  }

  function CsvRows(records: seq<AttendanceRecord>): (rows: seq<string>)
    ensures |rows| == |records|
    ensures forall k :: 0 <= k < |records| ==> rows[k] == Text.QuotedRow(CsvCells(records[k]))
  {
    if records == [] then [] else [Text.QuotedRow(CsvCells(records[0]))] + CsvRows(records[1..])
  }

  /** `exportToCSV`: the header line and one line per filtered record. */
  function Csv(records: seq<AttendanceRecord>, term: string, department: string): string {
    Text.CsvText(CsvHeader, CsvRows(Filtered(records, term, department)))
  }

  predicate SingleLine(r: AttendanceRecord) {
    forall c | c in CsvCells(r) :: '\n' !in c
  }

  /** The export has the header line and then exactly one line per filtered record, when no field holds a line break. */
  lemma CsvOneLinePerRecord(records: seq<AttendanceRecord>, term: string, department: string)
    requires forall k :: 0 <= k < |records| ==> SingleLine(records[k])
    ensures |Text.Split(Csv(records, term, department), '\n')| == 1 + |Filtered(records, term, department)|
  {
    var f := Filtered(records, term, department);
    var rows := CsvRows(f);
    forall k | 0 <= k < |rows| ensures '\n' !in rows[k] {
      assert f[k] in records;
      var cells := CsvCells(f[k]);
      forall c | 0 <= c < |cells| ensures '\n' !in cells[c] {
        assert cells[c] in cells;
      }
      Text.QuotedRowOneLine(cells);
    }
    Text.CsvLines(CsvHeader, rows);
  }

  /** The summary cards, all taken over the filtered records. */
  datatype Summary = Summary(present: nat, late: nat, absent: nat, onTimePercent: int)

  function Summarize(filtered: seq<AttendanceRecord>): (s: Summary)
    ensures s.present + s.late + s.absent <= |filtered|
    ensures 0 <= s.onTimePercent <= 100
    ensures filtered == [] ==> s.onTimePercent == 0
  {
    var present := ListView.Count(filtered, (r: AttendanceRecord) => r.status == "Present");
    var late := ListView.Count(filtered, (r: AttendanceRecord) => r.status == "Late");
    var absent := ListView.Count(filtered, (r: AttendanceRecord) => r.status == "Absent");
    ListView.CountDisjoint3(filtered,
      (r: AttendanceRecord) => r.status == "Present",
      (r: AttendanceRecord) => r.status == "Late",
      (r: AttendanceRecord) => r.status == "Absent");
    Summary(present, late, absent, ListView.RoundPercent(present, |filtered|))
  }

  /** The screen's state. */
  class AttendanceScreen {
    var records: seq<AttendanceRecord>
    var departments: seq<string>
    var searchTerm: string
    var selectedDepartment: string
    var timeRange: string
    var currentPage: int

    constructor ()
      ensures records == [] && departments == [AllDepartments]
      ensures searchTerm == "" && selectedDepartment == AllDepartments && timeRange == "Last 7 Days"
      ensures currentPage == 1
    {
      records := [];
      departments := [AllDepartments];
      searchTerm := "";
      selectedDepartment := AllDepartments;
      timeRange := "Last 7 Days";
      currentPage := 1;
    }

    function FilteredRecords(): seq<AttendanceRecord>
      reads this
    {
      Filtered(records, searchTerm, selectedDepartment)
    }

    function TotalPages(): nat
      reads this
    {
      ListView.TotalPages(|FilteredRecords()|, ItemsPerPage)
    }

    /** A fetched record list replaces the records; a failed fetch changes nothing. */
    method LoadRecords(response: Outcome<seq<AttendanceRecord>>)
      modifies this`records
      ensures records == if response.Ok? then response.payload else old(records)
    {
      if response.Ok? {
        records := response.payload;
      }
    }

    /** Fetched departments follow "All Departments"; a failed fetch changes nothing. */
    method LoadDepartments(response: Outcome<seq<string>>)
      modifies this`departments
      ensures departments == if response.Ok? then [AllDepartments] + response.payload else old(departments)
    {
      if response.Ok? {
        departments := [AllDepartments] + response.payload;
      }
    }

    method SetSearchTerm(term: string)
      modifies this`searchTerm, this`currentPage
      ensures searchTerm == term && currentPage == 1
    {
      searchTerm := term;
      currentPage := 1;
    }

    method SetDepartment(department: string)
      modifies this`selectedDepartment, this`currentPage
      ensures selectedDepartment == department && currentPage == 1
    {
      selectedDepartment := department;
      currentPage := 1;
    }

    /**
     * The time-range select: only `timeRange` changes, so the filtered list,
     * the page and the summary stay as they were.
     */
    method SetTimeRange(range: string)
      modifies this`timeRange
      ensures timeRange == range
      ensures FilteredRecords() == old(FilteredRecords()) && currentPage == old(currentPage)
    {
      timeRange := range;
    }

    method Paginate(page: int)
      modifies this`currentPage
      ensures currentPage == page
    {
      currentPage := page;
    }
  }
}
