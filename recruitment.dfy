/**
 * The recruitment screen (components/HR/Recruitment.tsx): a jobs tab and a
 * candidates tab sharing one search box, one status select and one page
 * counter, the CSV export of the active tab, the metric cards and the avatar
 * initials.
 */
module Recruitment {
  import opened Wrappers
  import Text
  import ListView

  datatype Job = Job(title: string, department: string, status: string, postedDate: string, applicants: nat)

  datatype Candidate = Candidate(name: string, job: string, status: string, email: string, phone: string, appliedDate: string)

  const ItemsPerPage: nat := 5
  const AllDepartments: string := "All Departments"
  const AllStatuses: string := "All Statuses"

  /** The department options the screen sets on mount. */
  const Departments: seq<string> := [AllDepartments, "IT", "HR", "Marketing", "Finance", "Operations"]

  /** A job passes: its title holds the term, and each select is at "All" or equal. */
  predicate JobMatches(job: Job, term: string, department: string, status: string) {
    Text.Includes(job.title, term)
    && (department == AllDepartments || job.department == department)
    && (status == AllStatuses || job.status == status)
  }

  /** A candidate passes: the name or the job holds the term, and the status select is at "All" or equal. */
  predicate CandidateMatches(c: Candidate, term: string, status: string) {
    (Text.Includes(c.name, term) || Text.Includes(c.job, term))
    && (status == AllStatuses || c.status == status)
  }

  /** `filteredJobs`. */
  function FilteredJobs(jobs: seq<Job>, term: string, department: string, status: string): (r: seq<Job>)
    ensures forall j :: j in r <==> j in jobs && JobMatches(j, term, department, status)
  {
    ListView.Filter(jobs, (j: Job) => JobMatches(j, term, department, status))
  }

  /** `filteredCandidates`: the department select plays no part. */
  function FilteredCandidates(cands: seq<Candidate>, term: string, status: string): (r: seq<Candidate>)
    ensures forall c :: c in r <==> c in cands && CandidateMatches(c, term, status)
  {
    ListView.Filter(cands, (c: Candidate) => CandidateMatches(c, term, status))
  }

  /** The status select narrows the jobs to exactly that status. */
  lemma StatusSelectsJobs(jobs: seq<Job>, term: string, department: string, status: string)
    requires status != AllStatuses
    ensures forall k :: 0 <= k < |FilteredJobs(jobs, term, department, status)| ==>
      FilteredJobs(jobs, term, department, status)[k].status == status
  {
    var r := FilteredJobs(jobs, term, department, status);
    forall k | 0 <= k < |r| ensures r[k].status == status {
      assert r[k] in r;
    }
  }

  const JobHeader: seq<string> := ["Job Title", "Department", "Status", "Posted Date", "Applicants"]
  const CandidateHeader: seq<string> := ["Candidate Name", "Applied Job", "Status", "Email", "Phone", "Applied Date"]

  function JobRow(j: Job): string {
    Text.QuotedRow([j.title, j.department, j.status, j.postedDate, Text.NatToString(j.applicants)])
  }

  function CandidateRow(c: Candidate): string {
    Text.QuotedRow([c.name, c.job, c.status, c.email, c.phone, c.appliedDate])
  }

  function JobRows(jobs: seq<Job>): (r: seq<string>)
    ensures |r| == |jobs|
    ensures forall k :: 0 <= k < |jobs| ==> r[k] == JobRow(jobs[k])
  {
    if jobs == [] then [] else [JobRow(jobs[0])] + JobRows(jobs[1..])
  }

  function CandidateRows(cands: seq<Candidate>): (r: seq<string>)
    ensures |r| == |cands|
    ensures forall k :: 0 <= k < |cands| ==> r[k] == CandidateRow(cands[k])
  {
    if cands == [] then [] else [CandidateRow(cands[0])] + CandidateRows(cands[1..])
  }

  predicate JobSingleLine(j: Job) {
    '\n' !in j.title && '\n' !in j.department && '\n' !in j.status && '\n' !in j.postedDate
  }

  lemma JobRowOneLine(j: Job)
    requires JobSingleLine(j)
    ensures '\n' !in JobRow(j)
  {
    var cells := [j.title, j.department, j.status, j.postedDate, Text.NatToString(j.applicants)];
    forall c | 0 <= c < |cells| ensures '\n' !in cells[c] {
      if c == 4 {
        var d := cells[4];
        forall i | 0 <= i < |d| ensures d[i] != '\n' {
          assert Text.IsDigit(d[i]);
        }
      }
    }
    Text.QuotedRowOneLine(cells);
  }

  /** The jobs export: its header line, then one line per filtered job, when no field holds a line break. */
  lemma JobsCsvLines(jobs: seq<Job>, term: string, department: string, status: string)
    requires forall k :: 0 <= k < |jobs| ==> JobSingleLine(jobs[k])
    ensures var f := FilteredJobs(jobs, term, department, status);
      Text.Split(Text.CsvText(JobHeader, JobRows(f)), '\n') == [Text.Join(JobHeader, ',')] + JobRows(f)
  {
    var f := FilteredJobs(jobs, term, department, status);
    var rows := JobRows(f);
    forall k | 0 <= k < |rows| ensures '\n' !in rows[k] {
      assert f[k] in jobs;
      JobRowOneLine(f[k]);
    }
    Text.CsvLines(JobHeader, rows);
  }

  /** "Open Positions": all listings with status Open, whatever the filters. */
  function OpenPositions(jobs: seq<Job>): nat {
    ListView.Count(jobs, (j: Job) => j.status == "Open")
  }

  /** "Interview Stage": all candidates with status Interview, whatever the filters. */
  function InterviewStage(cands: seq<Candidate>): nat {
    ListView.Count(cands, (c: Candidate) => c.status == "Interview")
  }

  /** "Hiring Rate": the rounded percentage of listings that are Closed, or 0 with no listings. */
  function HiringRate(jobs: seq<Job>): (r: int)
    ensures 0 <= r <= 100
    ensures |jobs| == 0 ==> r == 0
  {
    ListView.RoundPercent(ListView.Count(jobs, (j: Job) => j.status == "Closed"), |jobs|)
  }

  /** Open and Closed listings together never outnumber the listings. */
  lemma OpenAndClosedBounded(jobs: seq<Job>)
    ensures OpenPositions(jobs) + ListView.Count(jobs, (j: Job) => j.status == "Closed") <= |jobs|
  {
    ListView.CountDisjoint(jobs, (j: Job) => j.status == "Open", (j: Job) => j.status == "Closed");
  }

  /** The first character of every word; an empty word (from doubled spaces) contributes nothing. */
  function FirstLetters(words: seq<string>): string {
    if words == [] then ""
    else (if words[0] == "" then "" else [words[0][0]]) + FirstLetters(words[1..])
  }

  /** The avatar initials: `name.split(" ").map(n => n[0]).join("")`. */
  function Initials(name: string): string {
    FirstLetters(Text.Split(name, ' '))
  }

  /** With non-empty words, the letters are exactly the words' first characters. */
  lemma {:induction false} FirstLettersOfWords(words: seq<string>)
    requires forall k :: 0 <= k < |words| ==> words[k] != ""
    ensures |FirstLetters(words)| == |words|
    ensures forall k :: 0 <= k < |words| ==> FirstLetters(words)[k] == words[k][0]
  {
    if words != [] {
      FirstLettersOfWords(words[1..]);
    }
  }

  /**
   * A name made of non-empty words separated by single spaces has one initial
   * per word, each the first character of that word.
   */
  lemma InitialsOfWords(words: seq<string>)
    requires |words| >= 1
    requires forall k :: 0 <= k < |words| ==> words[k] != "" && ' ' !in words[k]
    ensures |Initials(Text.Join(words, ' '))| == |words|
    ensures forall k :: 0 <= k < |words| ==> Initials(Text.Join(words, ' '))[k] == words[k][0]
  {
    Text.SplitJoin(words, ' ');
    FirstLettersOfWords(words);
  }

  /** The screen's state. */
  class RecruitmentScreen {
    var jobListings: seq<Job>
    var candidates: seq<Candidate>
    var activeTab: string
    var searchTerm: string
    var selectedDepartment: string
    var selectedStatus: string
    var currentPage: int

    constructor ()
      ensures jobListings == [] && candidates == [] && activeTab == "jobs"
      ensures searchTerm == "" && selectedDepartment == AllDepartments && selectedStatus == AllStatuses
      ensures currentPage == 1
    {
      jobListings := [];
      candidates := [];
      activeTab := "jobs";
      searchTerm := "";
      selectedDepartment := AllDepartments;
      selectedStatus := AllStatuses;
      currentPage := 1;
    }

    /** A resolved listing fetch replaces the jobs; a rejected one changes nothing. */
    method LoadJobs(response: Outcome<seq<Job>>)
      modifies this`jobListings
      ensures jobListings == if response.Ok? then response.payload else old(jobListings)
    {
      if response.Ok? {
        jobListings := response.payload;
      }
    }

    /** A resolved candidate fetch replaces the candidates; a rejected one changes nothing. */
    method LoadCandidates(response: Outcome<seq<Candidate>>)
      modifies this`candidates
      ensures candidates == if response.Ok? then response.payload else old(candidates)
    {
      if response.Ok? {
        candidates := response.payload;
      }
    }

    function CurrentFilteredJobs(): seq<Job>
      reads this
    {
      FilteredJobs(jobListings, searchTerm, selectedDepartment, selectedStatus)
    }

    function CurrentFilteredCandidates(): seq<Candidate>
      reads this
    {
      FilteredCandidates(candidates, searchTerm, selectedStatus)
    }

    /** `totalPages`, counted on the active tab's list. */
    function TotalPages(): nat
      reads this
    {
      ListView.TotalPages(
        if activeTab == "jobs" then |CurrentFilteredJobs()| else |CurrentFilteredCandidates()|,
        ItemsPerPage)
    }

    /** `exportToCSV`: the active tab's header and one line per item of that tab's filtered list. */
    function Csv(): string
      reads this
    {
      if activeTab == "jobs" then Text.CsvText(JobHeader, JobRows(CurrentFilteredJobs()))
      else Text.CsvText(CandidateHeader, CandidateRows(CurrentFilteredCandidates()))
    }

    /** The two tab buttons: the tab changes and the page goes back to 1. */
    method SetActiveTab(tab: string)
      modifies this`activeTab, this`currentPage
      ensures activeTab == tab && currentPage == 1
    {
      activeTab := tab;
      currentPage := 1;
    }

    method SetSearchTerm(term: string)
      modifies this`searchTerm, this`currentPage
      ensures searchTerm == term && currentPage == 1
    {
      searchTerm := term;
      currentPage := 1;
    }

    method SetDepartment(department: string)
      modifies this`selectedDepartment, this`currentPage
      ensures selectedDepartment == department && currentPage == 1
    {
      selectedDepartment := department;
      currentPage := 1;
    }

    method SetStatus(status: string)
      modifies this`selectedStatus, this`currentPage
      ensures selectedStatus == status && currentPage == 1
    {
      selectedStatus := status;
      currentPage := 1;
    }

    method Paginate(page: int)
      modifies this`currentPage
      ensures currentPage == page
    {
      currentPage := page;
    }
  }
}
