# ERP front end: session, navigation and screen logic in Dafny

This project models the client-side logic of the ZCHPC ERP front end, a React
application with HR, payroll, accounting and inventory screens on top of a
REST client. It does not model the JSX or the styling. What it models:

- **Session and access.** The session context (`Auth`) restores, signs in and
  signs out a user kept under one browser-storage key, and answers permission
  checks. The route guard (`ProtectedRoute`) redirects or renders. The route
  table (`AppRoutes`) and the index redirect (`IndexPage`) complete the layer.
- **Navigation.** The sidebar of the main layout (`MainLayout`) filters the
  menu by permission and keeps at most one entry expanded. It also holds the
  "open tab" string, which the page switches dispatch on: `HrPage`,
  `PayrollPage`, `SrcPayrollPage` and `AccountingPage`.
- **Screens.** Each screen is a module, and its state (filters, page counter,
  edited lists, dialog steps) is a class whose methods are the handlers:
  - `Employees`, `Recruitment` and `Attendance` for HR;
  - `EmployeeInformation`, `ProcessPayroll`, `ProcessModal`, `PayslipGeneration`,
    `PayslipTotals`, `PayslipLabels`, `Deductions` and `SalarySetup` for payroll;
  - `Currencies` for accounting;
  - `Inventory`;
  - `TaxSelection` for the taxes and deductions dropdown of the employee form.
- **Shared derivations.** `ListView` holds the order-preserving filters, the
  pages of ten, the counts and sums and the rounded percentages. `Text` holds
  case-insensitive search, split/join and the CSV export text. `Format`
  holds `toFixed(2)` and the space-grouped ZIG format. `Months` holds the
  month picker's arithmetic.

Modelling conventions:
- A server call is a parameter of type `Outcome` (`Ok(payload)` or `Failed`).
- An operation that awaits a call is split into the state change before the
  call and the one after it.
- Amounts are whole cents, except where an exchange rate multiplies them; there
  they are exact reals.
- Lower-casing is ASCII only.

## Model

| member | source | states |
|---|---|---|
| Auth.NoUserNoPermission | contexts/AuthContext.tsx:83-86 | with no signed-in user every permission check is false |
| Auth.DefaultUserPermissions | contexts/AuthContext.tsx:23-30 | the default user holds exactly the six tags admin, sales, accounting, procurement, hr and inventory, and no other |
| Auth.AuthProvider.constructor | contexts/AuthContext.tsx:35-36 | the first render has no user and is loading |
| Auth.AuthProvider.Restore | contexts/AuthContext.tsx:38-50 | a non-empty stored session that parses becomes the user; one that does not parse is removed from storage; an empty or absent one changes nothing; loading ends in every case |
| Auth.AuthProvider.StartLogin | contexts/AuthContext.tsx:52-53 | login raises loading and changes neither the user nor storage before its wait |
| Auth.AuthProvider.FinishLogin | contexts/AuthContext.tsx:59-74 | success exactly for admin@zchpc.com with password admin; success signs in the default user and stores its serialised form; a failure changes neither; loading ends |
| Auth.AuthProvider.Login | contexts/AuthContext.tsx:52-75 | the whole login: success iff the one credential pair, after which the permission check holds exactly for the administrator's tags |
| Auth.AuthProvider.Logout | contexts/AuthContext.tsx:77-81 | afterwards there is no user and no stored session, whatever the state before, and loading is untouched |
| ProtectedRoute.LoadingWaits | components/ProtectedRoute.tsx:18-65 | while the session loads the guard shows the spinner and navigates nowhere |
| ProtectedRoute.EffectTargets | components/ProtectedRoute.tsx:18-34 | the effect goes to /login, remembering the path, exactly when loading is over and nobody is signed in; to /dashboard exactly when the signed-in user lacks the required tag; every redirect replaces the history entry |
| ProtectedRoute.ChildrenNeedPermission | components/ProtectedRoute.tsx:67-73 | the children render only after loading, and only when any required tag is held |
| ProtectedRoute.UntaggedRendersUnauthenticated | components/ProtectedRoute.tsx:18-73 | with no tag the children render once loading ends even without a user; only the redirect to /login stands in front of them |
| ProtectedRoute.PermittedPassesThrough | components/ProtectedRoute.tsx:18-73 | a signed-in user who holds the tag, or faces none, sees the children and is not redirected |
| AppRoutes.RootAndLogin | src/App.tsx:30-31 | / always redirects to /login, replacing the entry; /login is open to everyone |
| AppRoutes.RouteTags | src/App.tsx:34-88 | exactly the seven page paths are guarded, all inside the main layout; each tag names its page, settings needs admin, and the dashboard has no tag |
| AppRoutes.UnknownPathsNotFound | src/App.tsx:91 | every path outside the table, /payroll among them, shows the not-found page |
| AppRoutes.TaggedPageNeedsTag | src/App.tsx:42-88 | a tagged page is shown only after loading and only to a signed-in user holding its tag |
| AppRoutes.DashboardShownWithoutSession | src/App.tsx:34-40 | with no session the dashboard is still rendered once loading ends, while the guard sends the visitor to /login |
| AppRoutes.AdminReachesEveryPage | src/App.tsx:31-88 | the signed-in administrator sees every page of the table without a redirect |
| IndexPage.RedirectChoice | pages/Index.tsx:10-17 | the effect goes to /dashboard exactly when a user is signed in and to /login otherwise, also while the session is still loading |
| MainLayout.VisibleItems | src/components/MainLayout.tsx:264-266 | an entry of the menu is listed exactly when the signed-in user holds its permission tag |
| MainLayout.VisibleSubItems | src/components/MainLayout.tsx:301-307 | sub-entries are listed only under an entry that has a sub-menu, is expanded and (on desktop) sits in an open sidebar, and then exactly those the user holds the tag of |
| MainLayout.Toggled | src/components/MainLayout.tsx:201-204 | the new expansion map has the old keys plus the toggled path |
| MainLayout.ToggledExpandsOnlyPath | src/components/MainLayout.tsx:198-205 | after a toggle the toggled entry is expanded exactly when it was not, every other entry is collapsed, and at most one entry is expanded |
| MainLayout.ToggleTwice | src/components/MainLayout.tsx:198-205 | toggling an entry twice restores its own state and leaves every other entry collapsed |
| MainLayout.OneSubMenuAtATime | src/components/MainLayout.tsx:301-303 | when at most one entry is expanded, two listed sub-menus belong to the same entry |
| MainLayout.ActiveBelowPath | src/components/MainLayout.tsx:214-216 | an entry is highlighted on its own path and on every path that extends it |
| MainLayout.NavPermissions | src/components/MainLayout.tsx:45-182 | the menu has eight entries tagged admin, hr, hr, sales, accounting, procurement, inventory, admin |
| MainLayout.VisibleToAdmin | src/components/MainLayout.tsx:264-266 | the default administrator sees the whole menu, in order |
| MainLayout.HiddenWithoutSession | src/components/MainLayout.tsx:264-266 | a visitor without a session sees no entry |
| MainLayout.Sidebar.constructor | src/components/MainLayout.tsx:185-189 | the sidebar starts open, with the mobile menu closed and nothing expanded |
| MainLayout.Sidebar.ToggleSidebar | src/components/MainLayout.tsx:194-196 | flips the collapsed flag and changes nothing else |
| MainLayout.Sidebar.SetMobileMenuOpen | src/components/MainLayout.tsx:364-388 | the menu and close buttons set the mobile menu flag and nothing else |
| MainLayout.Sidebar.ToggleItemExpand | src/components/MainLayout.tsx:198-205 | navigates to the path, clears the open tab and toggles the path while collapsing every other entry, keeping at most one expanded |
| MainLayout.Sidebar.HandleNavigation | src/components/MainLayout.tsx:207-212 | the open tab ends as the path, the mobile menu closes and the router goes to the path |
| MainLayout.Sidebar.DesktopClick | src/components/MainLayout.tsx:274-283 | an entry with a sub-menu in an open sidebar, or Dashboard, is toggled; any other entry is navigated to |
| MainLayout.Sidebar.MobileClick | src/components/MainLayout.tsx:400-407 | an entry with a sub-menu is toggled; any other goes to the path behind a "#" without touching the open tab |
| MainLayout.Sidebar.SubItemClick | src/components/MainLayout.tsx:316 | a sub-entry click is a navigation to the sub-entry's path |
| MainLayout.Sidebar.ToggleItemExpandUnwired | src/components/MainLayout.tsx:198-205 | without `setOpenTab` the toggle throws after the router was told to go to the path; the expansion and the open tab are unchanged |
| MainLayout.Sidebar.HandleNavigationUnwired | src/components/MainLayout.tsx:207-212 | without `setOpenTab` the navigation throws before it changes anything |
| MainLayout.Sidebar.DesktopClickUnwired | src/components/MainLayout.tsx:274-283 | as src/App.tsx wires it, a desktop click that would toggle only moves the router, any other does nothing, and no entry expands |
| MainLayout.Sidebar.MobileClickUnwired | src/components/MainLayout.tsx:400-407 | as wired, a mobile sub-menu entry only moves the router and does not expand; a plain entry still goes to the path behind a "#" |
| MainLayout.Sidebar.SubItemClickUnwired | src/components/MainLayout.tsx:316 | as wired, a sub-entry click throws and changes nothing |
| MainLayout.NoSubMenuWhenNothingExpanded | src/components/MainLayout.tsx:301-307 | with nothing expanded, as at the start and after any wired click, no sub-entry is listed on either layout |
| HrPage.DefaultIsDashboard | pages/HRPage.tsx:16-29 | any open-tab string other than the four named fragments, the empty one included, shows the HR dashboard |
| HrPage.SidebarFragments | pages/HRPage.tsx:16-29 | of the five HR sub-entries, employees, attendance and recruitment open their own views and performance and training show the dashboard |
| PayrollPage.SetupIsDefault | pages/PayrollPage.tsx:14-31 | the setup fragment shows the payroll dashboard, the same view as any unknown string |
| PayrollPage.SidebarFragments | pages/PayrollPage.tsx:14-31 | of the six payroll sub-entries only payslips and contributions leave the dashboard, so the salary-setup, deductions and processing views are reached from no sidebar entry |
| SrcPayrollPage.AgreesWithPayrollPage | src/pages/PayrollPage.tsx:13-24 | this copy of the page agrees with the other on every string except the three fragments only the other names, which it shows as the dashboard |
| AccountingPage.AsWrittenCurrenciesUnreachable | pages/AccountingPage.tsx:12-19 | as written, the Currencies sub-entry's fragment and every other accounting sub-entry show the account dashboard, so no entry reaches the currency manager |
| AccountingPage.CurrenciesEntryOpensManager | pages/AccountingPage.tsx:12-19 | with the fragment matched as the sidebar emits it, exactly the Currencies sub-entry opens the currency manager |
| Employees.FirstIndex | src/components/HR/employees/Employees.tsx:40-42 | the index of the first occurrence of a value, with no occurrence before it |
| Employees.Distinct | src/components/HR/employees/Employees.tsx:40-42 | the distinct departments hold exactly the values of the list, each once, and are no longer than it |
| Employees.FirstIndexExtend | src/components/HR/employees/Employees.tsx:40-42 | appending to the list leaves the first appearance of a value already present where it was |
| Employees.FirstIndexUnique | src/components/HR/employees/Employees.tsx:40-42 | an occurrence with no earlier occurrence is the first one |
| Employees.DistinctFirstAppearanceOrder | src/components/HR/employees/Employees.tsx:40-42 | the distinct values keep the order of their first appearance, as a Set's iteration order does |
| Employees.DepartmentsOf | src/components/HR/employees/Employees.tsx:41 | the department of every employee, position by position |
| Employees.DepartmentOptions | src/components/HR/employees/Employees.tsx:40-43 | the department select starts with "All Departments" and then lists each fetched department exactly once |
| Employees.FilteredIsOrderedSelection | src/components/HR/employees/Employees.tsx:57-76 | the filtered list keeps, in list order, exactly the employees that pass the search, department and status tests |
| Employees.NoFilterKeepsAll | src/components/HR/employees/Employees.tsx:57-76 | an empty term with both selects at their "All" values lists every employee in order |
| Employees.TerminatedListsNoOne | src/components/HR/employees/Employees.tsx:69-73 | the "Terminated" status option matches no employee |
| Employees.LabelAndExportDisagreeOnLeave | src/components/HR/employees/Employees.tsx:106 | the table's status badge and the exported status agree exactly unless the employee is inactive and on leave |
| Employees.CsvRows | src/components/HR/employees/Employees.tsx:101-108 | one quoted six-cell line per employee, in order |
| Employees.CsvHeaderLine | src/components/HR/employees/Employees.tsx:91-100 | the header line is the six column names joined by commas |
| Employees.CsvRowOneLine | src/components/HR/employees/Employees.tsx:103-107 | a row built from fields without line breaks is a single line |
| Employees.CsvHasOneLinePerEmployee | src/components/HR/employees/Employees.tsx:89-109 | the export splits into the header and then exactly one line per filtered employee, in order |
| Employees.PaginationControls | src/components/HR/employees/Employees.tsx:408 | the pagination bar, shown only for more than ten employees, is absent exactly when page 1 already holds the whole list and there is at most one page; when shown there are at least two pages and page 1 is full, so "Next" starts enabled |
| Employees.EmployeesScreen.constructor | src/components/HR/employees/Employees.tsx:16-25 | empty list, no term, both selects at "All", page 1 |
| Employees.EmployeesScreen.CurrentItems | src/components/HR/employees/Employees.tsx:79-84 | the current page holds at most ten employees |
| Employees.EmployeesScreen.StartFetch | src/components/HR/employees/Employees.tsx:33 | fetching sets the loading flag |
| Employees.EmployeesScreen.FinishFetch | src/components/HR/employees/Employees.tsx:35-49 | a fetched list replaces the employees and the department options; a failure only ends loading |
| Employees.EmployeesScreen.SetSearchTerm | src/components/HR/employees/Employees.tsx:161-164 | the term changes and the page returns to 1 |
| Employees.EmployeesScreen.SetDepartment | src/components/HR/employees/Employees.tsx:172-175 | the department changes and the page returns to 1 |
| Employees.EmployeesScreen.SetStatus | src/components/HR/employees/Employees.tsx:189-192 | the status changes and the page returns to 1 |
| Employees.EmployeesScreen.Paginate | src/components/HR/employees/Employees.tsx:87 | the page becomes the one asked for |
| ListView.Filter | src/components/HR/employees/Employees.tsx:57 | the filtered list holds exactly the elements passing the test |
| ListView.FilterIsSubsequence | src/components/HR/employees/Employees.tsx:57 | filtering keeps the elements in their original order |
| ListView.SpliceOne | components/Payroll/Deductions.tsx:123-127 | removing one entry at an index deletes exactly that entry, and an index past the end removes nothing |
| ListView.SpliceOneReinsert | components/Payroll/Deductions.tsx:123-127 | putting the removed entry back at its index restores the list |
| ListView.PageWindow | src/components/HR/employees/Employees.tsx:79-84 | page p holds the items from (p-1)*size up to p*size, cut at the end of the list |
| ListView.TotalPagesBounds | src/components/HR/employees/Employees.tsx:85 | the page count is the least number of pages that holds the list, and 0 for an empty list |
| ListView.PagesCoverList | src/components/HR/employees/Employees.tsx:79-85 | pages 1 to the page count, laid end to end, show every item exactly once in order |
| ListView.PageBeyondLast | src/components/HR/employees/Employees.tsx:79-85 | a page after the last one is empty |
| Recruitment.FilteredJobs | components/HR/Recruitment.tsx:179-189 | a job is listed exactly when its title holds the term, case-insensitively, and it matches the department and status selects |
| Recruitment.FilteredCandidates | components/HR/Recruitment.tsx:191-198 | a candidate is listed exactly when the name or the job holds the term and the status matches; the department select plays no part |
| Recruitment.StatusSelectsJobs | components/HR/Recruitment.tsx:187-188 | a status other than "All Statuses" leaves only jobs with that status |
| Recruitment.JobRows | components/HR/Recruitment.tsx:231-237 | one quoted line per job, in order |
| Recruitment.CandidateRows | components/HR/Recruitment.tsx:231-237 | one quoted line per candidate, in order |
| Recruitment.JobRowOneLine | components/HR/Recruitment.tsx:235 | a job line built from fields without line breaks is a single line, the applicant count included |
| Recruitment.JobsCsvLines | components/HR/Recruitment.tsx:216-238 | the jobs export splits into the header and one line per filtered job |
| Recruitment.HiringRate | components/HR/Recruitment.tsx:948-955 | the hiring rate is a percentage between 0 and 100, and 0 with no listings |
| Recruitment.OpenAndClosedBounded | components/HR/Recruitment.tsx:919-955 | open and closed listings together never outnumber the listings |
| Recruitment.FirstLettersOfWords | components/HR/Recruitment.tsx:723-726 | with no empty word, the initials are exactly the first characters of the words |
| Recruitment.InitialsOfWords | components/HR/Recruitment.tsx:723-726 | a name of single-space-separated words has one initial per word, the first character of each |
| Recruitment.RecruitmentScreen.constructor | components/HR/Recruitment.tsx:19-29 | no jobs or candidates, the jobs tab, an empty term, both selects at "All", page 1 |
| Recruitment.RecruitmentScreen.LoadJobs | components/HR/Recruitment.tsx:92-98 | a resolved fetch replaces the listings and a rejected one keeps them |
| Recruitment.RecruitmentScreen.LoadCandidates | components/HR/Recruitment.tsx:159-164 | a resolved fetch replaces the candidates and a rejected one keeps them |
| Recruitment.RecruitmentScreen.SetActiveTab | components/HR/Recruitment.tsx:334-350 | the tab changes and the page returns to 1 |
| Recruitment.RecruitmentScreen.SetSearchTerm | components/HR/Recruitment.tsx:368-371 | the term changes and the page returns to 1 |
| Recruitment.RecruitmentScreen.SetDepartment | components/HR/Recruitment.tsx:379-382 | the department changes and the page returns to 1 |
| Recruitment.RecruitmentScreen.SetStatus | components/HR/Recruitment.tsx:397-400 | the status changes and the page returns to 1 |
| Recruitment.RecruitmentScreen.Paginate | components/HR/Recruitment.tsx:214 | the page becomes the one asked for |
| ListView.Count | components/HR/Recruitment.tsx:919 | a count of matching items is at most the length of the list |
| ListView.CountDisjoint | components/HR/Recruitment.tsx:919-955 | two tests that never hold together count at most the length of the list between them |
| ListView.RoundPercent | components/HR/Recruitment.tsx:948-955 | the rounded percentage is the integer nearest to 100·part/whole, halves up, lies in 0..100 when part ≤ whole, and is 0 for an empty whole |
| Attendance.Filtered | components/HR/Attendence.tsx:42-52 | a record is listed exactly when its name or employee id holds the term, case-insensitively, and the department matches; list order is kept |
| Attendance.TimeCell | components/HR/Attendence.tsx:226-229 | a missing or empty time is shown as --:--, any other as itself |
| Attendance.CsvCells | components/HR/Attendence.tsx:66-68 | each exported record has one cell per header column |
| Attendance.CsvRows | components/HR/Attendence.tsx:66-68 | one quoted line per record, in order |
| Attendance.CsvOneLinePerRecord | components/HR/Attendence.tsx:62-69 | the export splits into the header and exactly one line per filtered record |
| Attendance.Summarize | components/HR/Attendence.tsx:342-367 | the present, late and absent counts of the filtered records together never exceed them, and the on-time percentage lies in 0..100 and is 0 with no records |
| Attendance.AttendanceScreen.constructor | components/HR/Attendence.tsx:7-14 | no records, only "All Departments", an empty term, the last-7-days range, page 1 |
| Attendance.AttendanceScreen.LoadRecords | components/HR/Attendence.tsx:21-31 | a fetched list replaces the records and a failure keeps them |
| Attendance.AttendanceScreen.LoadDepartments | components/HR/Attendence.tsx:33-40 | fetched departments follow "All Departments" and a failure keeps the options |
| Attendance.AttendanceScreen.SetSearchTerm | components/HR/Attendence.tsx:124-127 | the term changes and the page returns to 1 |
| Attendance.AttendanceScreen.SetDepartment | components/HR/Attendence.tsx:135-138 | the department changes and the page returns to 1 |
| Attendance.AttendanceScreen.SetTimeRange | components/HR/Attendence.tsx:150 | only the range changes, so the filtered records and the page stay as they were |
| Attendance.AttendanceScreen.Paginate | components/HR/Attendence.tsx:60 | the page becomes the one asked for |
| EmployeeInformation.Filtered | src/components/Payroll/EmployeeInformation.tsx:51-65 | a record is listed exactly when its name or employee id holds the term, case-insensitively, and department and status match; fetched order is kept |
| EmployeeInformation.NoFilterKeepsAll | src/components/Payroll/EmployeeInformation.tsx:51-65 | an empty term with both selects at "All" lists every record in order |
| EmployeeInformation.CsvCells | src/components/Payroll/EmployeeInformation.tsx:95-97 | each exported record has one cell per header column |
| EmployeeInformation.CsvRows | src/components/Payroll/EmployeeInformation.tsx:95-97 | one quoted line per record, in order |
| EmployeeInformation.AmountCell | src/components/Payroll/EmployeeInformation.tsx:96 | an amount cell is one line with exactly two digits after its point |
| EmployeeInformation.HeaderOneLine | src/components/Payroll/EmployeeInformation.tsx:92 | no header cell holds a line break |
| EmployeeInformation.CsvRowOneLine | src/components/Payroll/EmployeeInformation.tsx:95-97 | a record without line breaks in its text fields exports as one line |
| EmployeeInformation.CsvHasOneLinePerRecord | src/components/Payroll/EmployeeInformation.tsx:91-98 | the export splits into the header and exactly one line per filtered record, in order |
| EmployeeInformation.Summarize | src/components/Payroll/EmployeeInformation.tsx:418-439 | the paid count is at most the records shown, which are the filtered records, and the deductions total is the base total less the net total |
| EmployeeInformation.AllProcessedAllPaid | src/components/Payroll/EmployeeInformation.tsx:439 | when every shown record is processed the paid card reads n/n |
| EmployeeInformation.DeductionsNonNegative | src/components/Payroll/EmployeeInformation.tsx:432 | records whose net never exceeds their base give a non-negative deductions total |
| EmployeeInformation.NonNegativeOnList | src/components/Payroll/EmployeeInformation.tsx:432 | the per-record deductions sum to a non-negative total when each is non-negative |
| EmployeeInformation.MenuActions | src/components/Payroll/EmployeeInformation.tsx:298-348 | the menu always offers view, print and email, and "Retry Payment" exactly for a failed payment |
| EmployeeInformation.AsWrittenProcessNeverRefetches | src/components/Payroll/EmployeeInformation.tsx:75-89 | with no toast import, a successful run throws before the refetch, so the records are never fetched again and the handler rejects |
| EmployeeInformation.ImportedToastRefetchesOnSuccess | src/components/Payroll/EmployeeInformation.tsx:75-89 | with toast imported, the records are fetched again exactly after a successful run |
| EmployeeInformation.FirstPageAfterFilterChange | src/components/Payroll/EmployeeInformation.tsx:67-70 | after a filter change the first page shows the first ten matches |
| EmployeeInformation.PayrollRecordsScreen.constructor | src/components/Payroll/EmployeeInformation.tsx:9-19 | the current month, no records, only "All Departments", an empty term, both selects at "All", page 1 |
| EmployeeInformation.PayrollRecordsScreen.CurrentItems | src/components/Payroll/EmployeeInformation.tsx:67-70 | the current page is the slice of the filtered records for that page, at most ten |
| EmployeeInformation.PayrollRecordsScreen.StartFetch | src/components/Payroll/EmployeeInformation.tsx:27 | fetching sets the loading flag |
| EmployeeInformation.PayrollRecordsScreen.FinishFetch | src/components/Payroll/EmployeeInformation.tsx:28-39 | fetched records replace the list, a failure keeps it, and loading ends either way |
| EmployeeInformation.PayrollRecordsScreen.LoadDepartments | src/components/Payroll/EmployeeInformation.tsx:42-49 | fetched departments follow "All Departments" and a failure keeps the options |
| EmployeeInformation.PayrollRecordsScreen.SetMonth | src/components/Payroll/EmployeeInformation.tsx:161-164 | the month changes and the page returns to 1 |
| EmployeeInformation.PayrollRecordsScreen.SetSearchTerm | src/components/Payroll/EmployeeInformation.tsx:174-177 | the term changes and the page returns to 1 |
| EmployeeInformation.PayrollRecordsScreen.SetDepartment | src/components/Payroll/EmployeeInformation.tsx:185-188 | the department changes and the page returns to 1 |
| EmployeeInformation.PayrollRecordsScreen.SetStatus | src/components/Payroll/EmployeeInformation.tsx:200-203 | the status changes and the page returns to 1 |
| EmployeeInformation.PayrollRecordsScreen.Paginate | src/components/Payroll/EmployeeInformation.tsx:73 | the page becomes the one asked for |
| EmployeeInformation.PayrollRecordsScreen.ProcessPayroll | src/components/Payroll/EmployeeInformation.tsx:75-89 | with toast imported, the records are fetched again exactly on success and loading ends |
| ProcessPayroll.Filtered | components/Payroll/ProcessPayroll.tsx:121-131 | an employee row is listed exactly when its name or employee id holds the term, case-insensitively, and the department matches; order is kept |
| ProcessPayroll.Summarize | components/Payroll/ProcessPayroll.tsx:134-143 | the cards count every employee of the month, and the processed count never exceeds it |
| ProcessPayroll.SummaryIgnoresFilters | components/Payroll/ProcessPayroll.tsx:121-143 | the cards' employee count is never below the number of rows the filters show |
| ProcessPayroll.MissingAmountsAddNothing | components/Payroll/ProcessPayroll.tsx:135-140 | an employee with no amounts adds one to the count and nothing to any total |
| ProcessPayroll.SumAppendOne | components/Payroll/ProcessPayroll.tsx:135-140 | summing over one more row adds that row's amount |
| ProcessPayroll.ZigFigures | components/Payroll/ProcessPayroll.tsx:265-279 | each ZIG figure reads back, with its prefix and spaces removed, as twelve times the USD amount in two decimals, and the ZIG gross card is the sum of the rows' ZIG gross amounts |
| ProcessPayroll.NextDisabledIff | components/Payroll/ProcessPayroll.tsx:171-173 | the next-month arrow is disabled exactly when the selected month is not before the current one, so also on the current month |
| ProcessPayroll.BannerTone | components/Payroll/ProcessPayroll.tsx:181-189 | the banner appears only with a run, green exactly for a processed run and yellow exactly for a pending one |
| ProcessPayroll.BannerButtons | components/Payroll/ProcessPayroll.tsx:223-241 | process is offered exactly for a draft run (never without a run, since the button sits inside the banner), under a red banner, and never together with approve |
| ProcessPayroll.PayrollRunScreen.constructor | components/Payroll/ProcessPayroll.tsx:23-30 | the current month, no run, no employees, only "All Departments", nothing loading or processing |
| ProcessPayroll.PayrollRunScreen.FinishFetch | components/Payroll/ProcessPayroll.tsx:38-54 | the run and the employees arrive together, a failure keeps both, and loading ends |
| ProcessPayroll.PayrollRunScreen.LoadDepartments | components/Payroll/ProcessPayroll.tsx:57-64 | fetched departments follow "All Departments" and a failure keeps the options |
| ProcessPayroll.PayrollRunScreen.PreviousMonth | components/Payroll/ProcessPayroll.tsx:156 | the previous-month arrow moves back one month |
| ProcessPayroll.PayrollRunScreen.NextMonth | components/Payroll/ProcessPayroll.tsx:171-173 | the next-month arrow moves forward one month only before the current month |
| ProcessPayroll.PayrollRunScreen.SetSearchTerm | components/Payroll/ProcessPayroll.tsx:121-124 | the term changes |
| ProcessPayroll.PayrollRunScreen.SetDepartment | components/Payroll/ProcessPayroll.tsx:126-128 | the department changes |
| ProcessPayroll.PayrollRunScreen.HandleProcessPayroll | components/Payroll/ProcessPayroll.tsx:66-85 | a declined confirm calls nothing and changes nothing; otherwise the returned run replaces the shown one, a refetch follows exactly on success, and processing ends |
| ProcessPayroll.PayrollRunScreen.HandleApprovePayroll | components/Payroll/ProcessPayroll.tsx:87-100 | a declined confirm calls nothing; a refetch follows exactly a confirmed, successful approval |
| Format.TwoDigits | components/ui/utils.tsx:11 | two decimal digits that read back as the number below 100 |
| Format.ToFixed2 | components/ui/utils.tsx:11 | the fixed-point text has digits, one point three places from the end, two decimals, and a leading minus exactly for a negative amount |
| Format.ToFixed2Value | components/ui/utils.tsx:11 | the digits before and after the point read back as the absolute amount in cents |
| Format.DigitRun | components/ui/utils.tsx:11 | the length of the run of digits starting at a position, which stops before the first non-digit |
| Format.GroupRemoveSpaces | components/ui/utils.tsx:11 | removing the spaces of a grouped numeral gives back its digits |
| Format.SpacedShort | components/ui/utils.tsx:11 | fewer than four remaining digits get no space |
| Format.SpacedAppend | components/ui/utils.tsx:11 | appending three digits to a numeral adds one space before them |
| Format.SpacedIsGroup | components/ui/utils.tsx:11 | the per-position reading of the pattern equals grouping by threes from the right |
| Format.ReplacedSplit | components/ui/utils.tsx:11 | a global replace over a range is the replace over its two halves joined |
| Format.ReplacedNoMatch | components/ui/utils.tsx:11 | where the pattern matches nowhere the text is unchanged |
| Format.ReplacedDigits | components/ui/utils.tsx:11 | over the whole-unit digits, the pattern inserts a space before every position followed by a multiple of three digits, except the first |
| Format.RunInDigits | components/ui/utils.tsx:11 | inside the whole-unit digits the run of digits reaches exactly to the point |
| Format.ReplacedNumeral | components/ui/utils.tsx:11 | over a whole fixed-point text the pattern groups the units and leaves the sign and decimals alone |
| Format.FormatZigShape | components/ui/utils.tsx:10-12 | the ZIG text is the prefix, the sign, the units grouped by three from the right, the point and two decimals |
| Format.FormatZigRoundTrip | components/ui/utils.tsx:10-12 | the ZIG text starts with "ZIG " and, with its spaces removed, reads back as the two-decimal text of the amount |
| Format.FormatZigExample1 | components/ui/utils.tsx:10-12 | 999.00 is shown ungrouped |
| Format.FormatZigExample2 | components/ui/utils.tsx:10-12 | 1234567.50 is shown as "ZIG 1 234 567.50" |
| Format.FormatZigExample3 | components/ui/utils.tsx:10-12 | -1234.00 is shown as "ZIG -1 234.00", the sign left ungrouped |
| Months.Next | components/Payroll/ProcessPayroll.tsx:171 | the month after a valid month is a valid month |
| Months.Prev | components/Payroll/ProcessPayroll.tsx:156 | the month before a valid month is a valid month |
| Months.NextPrevInverse | components/Payroll/ProcessPayroll.tsx:156-171 | the two arrows undo each other and each moves exactly one month along the calendar |
| Months.Pow10 | components/Payroll/ProcessPayroll.tsx:173 | a power of ten is at least 1 |
| Months.Digit | components/Payroll/ProcessPayroll.tsx:173 | the character of a digit reads back as that digit |
| Months.Padded | components/Payroll/ProcessPayroll.tsx:173 | a zero-padded numeral has exactly the field width, all digits |
| Months.PaddedValue | components/Payroll/ProcessPayroll.tsx:173 | the padded numeral reads back as the number |
| Months.IsoText | components/Payroll/ProcessPayroll.tsx:173 | the year-month text has seven characters with the dash fifth |
| Months.StrLessAppend | components/Payroll/ProcessPayroll.tsx:173 | comparing texts with equal-length heads compares the heads first, then the tails |
| Months.DigitsOrder | components/Payroll/ProcessPayroll.tsx:173 | digit strings of one length compare as strings as their values do |
| Months.PaddedOrder | components/Payroll/ProcessPayroll.tsx:173 | padded numerals of one width compare as the numbers do |
| Months.IsoTextOrder | components/Payroll/ProcessPayroll.tsx:173 | comparing year-month texts as strings is calendar order |
| Inventory.FilteredItems | pages/InventoryPage.tsx:52-56 | an item is listed exactly when its name, category or id holds the term, ignoring case; table order is kept |
| Inventory.EmptySearchListsAll | pages/InventoryPage.tsx:20-56 | an empty search lists all ten items in table order |
| Inventory.StatusLabel | pages/InventoryPage.tsx:36-48 | an unknown status is shown as it is |
| Inventory.KnownStatusLabels | pages/InventoryPage.tsx:36-48 | the four known statuses read In Stock, Low Stock, Out of Stock and Available, all distinct |
| Inventory.NotHardware | pages/InventoryPage.tsx:52-56 | a text with neither case of h (or of w) does not hold "HARDWARE" |
| Inventory.HardwareCategoryMatches | pages/InventoryPage.tsx:54 | an item in the Hardware category matches "HARDWARE" through its category |
| Inventory.NoLetterNoMatch | pages/InventoryPage.tsx:52-56 | an item with neither case of h (or of w) in any searched field does not match "HARDWARE" |
| Inventory.HardwareSearch | pages/InventoryPage.tsx:20-56 | searching "HARDWARE" lists exactly INV-001, INV-002, INV-004, INV-009 and INV-010, in table order |
| Deductions.Filtered | components/Payroll/Deductions.tsx:62-65 | an employee is listed exactly when the first name or employee id holds the term, ignoring case; order is kept |
| Deductions.SavedStatutory | components/Payroll/Deductions.tsx:70 | the saved statutory list when there is one, otherwise empty |
| Deductions.SavedVoluntary | components/Payroll/Deductions.tsx:71 | the saved voluntary list when there is one, otherwise empty |
| Deductions.FromForm | components/Payroll/Deductions.tsx:104-108 | the added line takes the form's name and fixed flag, and its amount is the number 0 exactly when the amount text is empty |
| Deductions.FromTemplate | components/Payroll/Deductions.tsx:138-144 | a template line keeps the template's name and description, is flagged statutory, and has the template's amount or 0 |
| Deductions.AddTemplate | components/Payroll/Deductions.tsx:129-146 | a template is refused exactly when its name is already present; otherwise its line is appended and the rest kept |
| Deductions.AddTemplateKeepsDistinct | components/Payroll/Deductions.tsx:129-146 | one template click keeps the statutory names distinct and leaves the template's name present |
| Deductions.TemplatesNeverDuplicate | components/Payroll/Deductions.tsx:129-146 | any sequence of template clicks keeps the names distinct, leaves every clicked name present and keeps the earlier lines in place |
| Deductions.AllTemplatesOnce | components/Payroll/Deductions.tsx:38-43 | the four templates clicked once each on an empty list give four distinct lines, one per template |
| Deductions.DeductionsScreen.constructor | components/Payroll/Deductions.tsx:21-35 | no employees, nobody edited, empty lists and the empty voluntary form |
| Deductions.DeductionsScreen.FinishFetch | components/Payroll/Deductions.tsx:49-60 | fetched employees replace the list, a failure keeps it, and loading ends |
| Deductions.DeductionsScreen.SetSearchTerm | components/Payroll/Deductions.tsx:169 | the term changes |
| Deductions.DeductionsScreen.HandleEdit | components/Payroll/Deductions.tsx:67-73 | the employee is edited, starting from the saved lists or empty ones |
| Deductions.DeductionsScreen.HandleCancel | components/Payroll/Deductions.tsx:75-81 | nobody is edited and both lists are emptied |
| Deductions.DeductionsScreen.HandleSave | components/Payroll/Deductions.tsx:83-96 | success ends the edit and refetches; a failure keeps the edit open; loading ends |
| Deductions.DeductionsScreen.SetNewName | components/Payroll/Deductions.tsx:353-354 | only the form's name changes |
| Deductions.DeductionsScreen.SetNewAmount | components/Payroll/Deductions.tsx:362-363 | only the form's amount changes |
| Deductions.DeductionsScreen.AddDeduction | components/Payroll/Deductions.tsx:98-121 | an empty name is an error that changes nothing; otherwise the line goes to the end of the list the form names, the other list is kept and the form is reset |
| Deductions.DeductionsScreen.RemoveDeduction | components/Payroll/Deductions.tsx:123-127 | the entry at the index leaves that list and nothing else is lost; the other list is kept |
| Deductions.DeductionsScreen.AddStatutoryTemplate | components/Payroll/Deductions.tsx:129-146 | a present name is an error that changes nothing; otherwise the template line is appended; the names stay distinct and the template's name is present afterwards |
| Deductions.DeductionsScreen.SetLineAmount | components/Payroll/Deductions.tsx:278-281 | typing an amount replaces that field of that line only |
| Deductions.DeductionsScreen.SetVoluntaryName | components/Payroll/Deductions.tsx:306-309 | typing a name replaces that field of that voluntary line only |
| Deductions.DeductionsScreen.SetVoluntaryFixed | components/Payroll/Deductions.tsx:330-333 | the checkbox replaces the fixed flag of that voluntary line only |
| SalarySetup.Filtered | components/Payroll/SalarySetup.tsx:51-55 | an employee is listed exactly when a present surname or employee id holds the term; one with neither never matches, not even the empty term |
| SalarySetup.LoadForm | components/Payroll/SalarySetup.tsx:58-66 | the form takes each saved value, with an empty text or list where it is missing |
| SalarySetup.Lookup | components/Payroll/SalarySetup.tsx:81 | the form answers exactly its four keys; any other key reads as undefined |
| SalarySetup.AsWrittenSaveAlwaysRejected | components/Payroll/SalarySetup.tsx:80-84 | the guard as written reads two keys the form never has, so every form is rejected and the update is never sent |
| SalarySetup.SaveGuardIntended | components/Payroll/SalarySetup.tsx:80-84 | the guard on the form's own salary keys rejects exactly a form with an empty salary, so a filled form is sent |
| SalarySetup.AddItem | components/Payroll/SalarySetup.tsx:101-124 | an item missing its name or amount is refused; otherwise it is appended and the list kept |
| SalarySetup.SalarySetupScreen.constructor | components/Payroll/SalarySetup.tsx:18-29 | no employees, nobody edited, the empty form and empty item inputs |
| SalarySetup.SalarySetupScreen.FinishFetch | components/Payroll/SalarySetup.tsx:36-48 | fetched employees replace the list, a failure keeps it, and loading ends |
| SalarySetup.SalarySetupScreen.SetSearchTerm | components/Payroll/SalarySetup.tsx:154 | the term changes |
| SalarySetup.SalarySetupScreen.HandleEdit | components/Payroll/SalarySetup.tsx:58-66 | the employee is edited with the form loaded from it |
| SalarySetup.SalarySetupScreen.HandleCancel | components/Payroll/SalarySetup.tsx:69-77 | nobody is edited and the form is emptied |
| SalarySetup.SalarySetupScreen.SetUsdSalary | components/Payroll/SalarySetup.tsx:228-233 | only the USD salary of the form changes |
| SalarySetup.SalarySetupScreen.SetZigSalary | components/Payroll/SalarySetup.tsx:242-247 | only the ZIG salary of the form changes |
| SalarySetup.SalarySetupScreen.SetNewAllowance | components/Payroll/SalarySetup.tsx:286-303 | the allowance input holds the typed item |
| SalarySetup.SalarySetupScreen.SetNewDeduction | components/Payroll/SalarySetup.tsx:351-368 | the deduction input holds the typed item |
| SalarySetup.SalarySetupScreen.HandleSave | components/Payroll/SalarySetup.tsx:80-98 | with the intended guard, a form with an empty salary sends nothing; otherwise success ends the edit and refetches, a failure keeps the edit, and loading ends |
| SalarySetup.SalarySetupScreen.AddAllowance | components/Payroll/SalarySetup.tsx:101-111 | a missing name or amount is an error that changes nothing; otherwise the allowance is appended, the deductions kept and the input cleared |
| SalarySetup.SalarySetupScreen.AddDeduction | components/Payroll/SalarySetup.tsx:114-124 | the same for the deductions, leaving the allowances as they were |
| SalarySetup.SalarySetupScreen.RemoveItem | components/Payroll/SalarySetup.tsx:127-131 | the entry at the index leaves that list only, and nothing else is lost |
| TaxSelection.Toggled | components/HR/employees/TaxAndDeductions.tsx:50-56 | a selected id is dropped with the other entries kept in order; an unselected choice is appended at the end; distinct ids stay distinct |
| TaxSelection.FilterKeepsDistinct | components/HR/employees/TaxAndDeductions.tsx:53 | removing entries never makes two entries share an id |
| TaxSelection.ConsDistinct | components/HR/employees/TaxAndDeductions.tsx:53 | a choice kept in front of entries without its id keeps the ids distinct |
| TaxSelection.ToggleTwice | components/HR/employees/TaxAndDeductions.tsx:50-56 | toggling the same choice twice restores its membership, and from unselected restores the exact list |
| TaxSelection.AsWrittenDeselectReportsItem | components/HR/employees/TaxAndDeductions.tsx:57 | as written, unticking a selected choice reports a list that still holds it while the dropdown's own selection does not |
| TaxSelection.ReportedFollowsToggle | components/HR/employees/TaxAndDeductions.tsx:50-57 | the corrected report holds the toggled choice exactly when it was not selected before, and keeps ids distinct |
| TaxSelection.ButtonLabel | components/HR/employees/TaxAndDeductions.tsx:66-69 | no selection shows "Select taxes and deductions"; otherwise the decimal count followed by " selected" |
| TaxSelection.Dropdown.constructor | components/HR/employees/TaxAndDeductions.tsx:5-6 | the dropdown starts closed with nothing selected |
| TaxSelection.Dropdown.ToggleSelection | components/HR/employees/TaxAndDeductions.tsx:50-58 | the selection becomes the toggled list and the parent receives that same list (corrected report) |
| TaxSelection.Dropdown.ToggleOpen | components/HR/employees/TaxAndDeductions.tsx:63 | the header button flips the panel open or closed |
| TaxSelection.Dropdown.Done | components/HR/employees/TaxAndDeductions.tsx:118 | "Done" closes the panel |
| ProcessModal.HasErrorIff | src/components/Payroll/ProcessPayrollModal.tsx:274 | the scan over the issues finds an error exactly when some issue has severity "error" |
| ProcessModal.HasErrorAppend | src/components/Payroll/ProcessPayrollModal.tsx:274 | one more issue blocks processing exactly when it is an error or an earlier issue already was |
| ProcessModal.CurrencyLabel | src/components/Payroll/ProcessPayrollModal.tsx:84-91 | "dual", "usd" and "zig" read as their three descriptions; any other option reads as empty |
| ProcessModal.CurrencyLabelsDistinct | src/components/Payroll/ProcessPayrollModal.tsx:84-91 | the three offered options have non-empty labels that tell them apart |
| ProcessModal.PayrollModal.constructor | src/components/Payroll/ProcessPayrollModal.tsx:8-13 | the dialog starts at the validation step with rate 30, dual currency, not loading and nothing fetched |
| ProcessModal.PayrollModal.Shown | src/components/Payroll/ProcessPayrollModal.tsx:93 | nothing is rendered exactly while the dialog is closed; otherwise the current step's panel |
| ProcessModal.PayrollModal.OpenChanged | src/components/Payroll/ProcessPayrollModal.tsx:16-25 | opening starts the validation fetch; closing drops the results and details and returns to the validation step |
| ProcessModal.PayrollModal.FinishValidation | src/components/Payroll/ProcessPayrollModal.tsx:27-42 | a successful validation shows its results at the validation step; a failure keeps the state; loading ends either way |
| ProcessModal.PayrollModal.FetchExchangeRate | src/components/Payroll/ProcessPayrollModal.tsx:44-52 | the fetched rate replaces the one in use; a failure keeps it |
| ProcessModal.PayrollModal.SetExchangeRate | src/components/Payroll/ProcessPayrollModal.tsx:244 | the rate field sets the rate used for processing (its text read as a number is a parameter) |
| ProcessModal.PayrollModal.SetCurrency | src/components/Payroll/ProcessPayrollModal.tsx:210-222 | a currency button selects its option |
| ProcessModal.PayrollModal.HandleConfirm | src/components/Payroll/ProcessPayrollModal.tsx:76-78 | confirming moves to the confirmation step |
| ProcessModal.PayrollModal.ClickContinue | src/components/Payroll/ProcessPayrollModal.tsx:272-276 | the button, rendered only at the validation step once loading is over, reaches confirmation exactly when results are shown without an error issue; otherwise the step is unchanged |
| ProcessModal.PayrollModal.HandleBack | src/components/Payroll/ProcessPayrollModal.tsx:80-82 | going back returns to the validation step |
| ProcessModal.PayrollModal.StartProcessing | src/components/Payroll/ProcessPayrollModal.tsx:54-56 | processing starts loading at the processing step |
| ProcessModal.PayrollModal.FinishProcessing | src/components/Payroll/ProcessPayrollModal.tsx:57-74 | success shows the results with the returned details and notifies the parent exactly then; a failure returns to validation; loading ends either way; the results step always has details |
| Currencies.InitialCurrencies | src/components/Accounting/Currencies.tsx:19-23 | the screen starts with USD, EUR and ZWL in that order, each with a single rate recorded at the current moment |
| Currencies.LatestRate | src/components/Accounting/Currencies.tsx:132 | the list page's latest rate is the first entry of the history, and exists exactly when the history is non-empty |
| Currencies.PrependRate | src/components/Accounting/Currencies.tsx:30-42 | the new rate goes in front of the history of every currency with the code; every other currency is unchanged |
| Currencies.DropIndex | src/components/Accounting/Currencies.tsx:50 | an index inside the history removes exactly that entry, keeping the others in order; any other index changes nothing |
| Currencies.RemoveRateAt | src/components/Accounting/Currencies.tsx:46-54 | only currencies with the code lose the indexed rate; the others are unchanged |
| Currencies.AddedRateIsLatest | src/components/Accounting/Currencies.tsx:27-44 | once a rate is prepended to a sorted history and the render has sorted it again, the new rate heads the table, and is the list page's latest rate, exactly when no earlier rate is dated after it |
| Currencies.RemoveUndoesAdd | src/components/Accounting/Currencies.tsx:46-54 | in that same re-sorted history, deleting row 0 restores the earlier history exactly when no earlier rate is dated after the new one; otherwise the new rate survives the delete |
| Currencies.FindCodeAfterPrepend | src/components/Accounting/Currencies.tsx:30-42 | prepending a rate keeps every code in place, so `find` on the selected code gives the same index |
| Currencies.SortNewestFirst | src/components/Accounting/Currencies.tsx:98 | the in-place sort leaves the rates newest first and is a permutation of them; a history already newest first is left as it is |
| Currencies.InsertBack | src/components/Accounting/Currencies.tsx:98 | one pass of the sort moves a rate back past the older rates of the sorted prefix, leaving the prefix one longer and sorted, as a permutation; a rate no newer than its predecessor moves nothing |
| Currencies.FindCode | src/components/Accounting/Currencies.tsx:97 | finds the first currency with the code, or reports that none has it |
| Currencies.CurrencyManager.constructor | src/components/Accounting/Currencies.tsx:19-25 | the screen starts with the three initial currencies, nothing selected and empty inputs |
| Currencies.CurrencyManager.Select | src/components/Accounting/Currencies.tsx:130 | clicking a row selects its code |
| Currencies.CurrencyManager.Back | src/components/Accounting/Currencies.tsx:61 | "Back to Currencies" clears the selection |
| Currencies.CurrencyManager.SetNewRate | src/components/Accounting/Currencies.tsx:69-79 | the two inputs hold the typed rate and date texts |
| Currencies.CurrencyManager.AddRate | src/components/Accounting/Currencies.tsx:27-44 | an empty rate, an empty date or no selected code changes nothing; otherwise the rate is prepended to the selected currency and both inputs are cleared |
| Currencies.CurrencyManager.RemoveRate | src/components/Accounting/Currencies.tsx:107 | the delete button removes the row's index from that currency's history |
| Currencies.CurrencyManager.SortSelectedRates | src/components/Accounting/Currencies.tsx:96-99 | rendering sorts the selected currency's history newest first, in the state, as a permutation, leaving an already sorted history as it is; every other currency is unchanged |
| Currencies.CurrencyManager.AddRateThenRender | src/components/Accounting/Currencies.tsx:27-44 | "Add Rate" followed by the render it causes: the selected history grows by one; the new rate heads the table exactly when no earlier rate is dated after it, and then the table is the new rate followed by the earlier history and the list page's latest rate is the new rate |
| PayslipGeneration.Filtered | components/Payroll/PayslipGeneration.tsx:97-100 | an employee is listed exactly when its name or employee id holds the term, case-insensitively; a missing field never matches; list order is kept |
| PayslipGeneration.EmptyTermListsNamed | components/Payroll/PayslipGeneration.tsx:97-100 | an empty term lists every employee that has a name or an employee id |
| PayslipGeneration.ViewOf | components/Payroll/PayslipGeneration.tsx:102-265 | exactly one of preview, picker, loading, error and main is rendered, each characterised by preview mode, selection, data and loading |
| PayslipGeneration.ClearingSelectionShowsPicker | components/Payroll/PayslipGeneration.tsx:249 | clearing the selection shows the picker whatever else the state holds |
| PayslipGeneration.DataHidesLoadingAndError | components/Payroll/PayslipGeneration.tsx:223 | once data is present the loading and error views are not shown, even while another fetch runs |
| PayslipGeneration.ReplaceFirstSpace | components/Payroll/PayslipGeneration.tsx:129 | a string-pattern replace turns only the first space into an underscore and keeps the rest |
| PayslipGeneration.ReplaceFirstSpaceCount | components/Payroll/PayslipGeneration.tsx:129 | the replace removes exactly one space when there is one |
| PayslipGeneration.FileName | components/Payroll/PayslipGeneration.tsx:129 | the download name starts with "Payslip_", ends with ".pdf" and is 13 characters longer than name and period together |
| PayslipGeneration.FileNameSpaces | components/Payroll/PayslipGeneration.tsx:334 | the file name keeps a space exactly when the name or the period has two or more |
| PayslipGeneration.PeriodHasOneSpace | components/Payroll/PayslipGeneration.tsx:18 | the fixed period "april 2025" has exactly one space, so it leaves no space in the file name |
| PayslipGeneration.FirstChars | components/Payroll/PayslipGeneration.tsx:199 | joining first characters gives at most one character per part, an empty part adding nothing |
| PayslipGeneration.Initials | components/Payroll/PayslipGeneration.tsx:199 | the avatar shows at most one letter per space-separated word |
| PayslipGeneration.TwoWordInitials | components/Payroll/PayslipGeneration.tsx:199 | a first name and a surname separated by one space give their two first letters |
| PayslipGeneration.PayslipScreen.constructor | components/Payroll/PayslipGeneration.tsx:9-16 | the dialog starts loading its employee list, with nothing selected, fetched, previewed or sent |
| PayslipGeneration.PayslipScreen.DownloadName | components/Payroll/PayslipGeneration.tsx:127-134 | the download has a file name exactly when the selected employee has a name, and it is the name built from that name and the period |
| PayslipGeneration.PayslipScreen.FinishFetchEmployees | components/Payroll/PayslipGeneration.tsx:37-48 | a successful fetch replaces the list, a failure keeps it, and loading ends either way |
| PayslipGeneration.PayslipScreen.SetSearchTerm | components/Payroll/PayslipGeneration.tsx:15 | the search box sets the term |
| PayslipGeneration.PayslipScreen.SelectEmployee | components/Payroll/PayslipGeneration.tsx:195 | a click selects the employee and starts the payslip fetch, so the loading view shows unless data is already present |
| PayslipGeneration.PayslipScreen.FinishFetchPayslip | components/Payroll/PayslipGeneration.tsx:50-64 | success stores the data, failure keeps the old data, and a first failure with a selection shows the error view |
| PayslipGeneration.PayslipScreen.Retry | components/Payroll/PayslipGeneration.tsx:255 | "Retry" starts the fetch again and shows the loading view |
| PayslipGeneration.PayslipScreen.ClearSelection | components/Payroll/PayslipGeneration.tsx:275 | "Back" and "Change Employee" clear the selection and show the picker |
| PayslipGeneration.PayslipScreen.ClosePreview | components/Payroll/PayslipGeneration.tsx:111 | closing the preview leaves preview mode and shows the main view when there is data |
| PayslipGeneration.PayslipScreen.HandleAction | components/Payroll/PayslipGeneration.tsx:83-95 | the action is always recorded; "preview" turns the preview on; "email" starts a send, exactly then; other actions do nothing more |
| PayslipGeneration.PayslipScreen.ClickEmail | components/Payroll/PayslipGeneration.tsx:135-140 | an e-mail button sends exactly when no payslip was e-mailed yet; the preview's button first leaves the preview |
| PayslipGeneration.PayslipScreen.FinishEmail | components/Payroll/PayslipGeneration.tsx:66-81 | only a successful send marks the payslip as sent, nothing unmarks it, and loading ends |
| PayslipTotals.AtRate | components/Payroll/PayslipModal.tsx:11 | a line keeps its name and USD amount, and its ZIG amount is the USD amount at the rate |
| PayslipTotals.Additions | components/Payroll/PayslipModal.tsx:7-24 | four additions, each with its ZIG amount at the record's rate |
| PayslipTotals.Deductions | components/Payroll/PayslipModal.tsx:27-44 | four deductions, each with its ZIG amount at the record's rate |
| PayslipTotals.TotalZigAtRate | components/Payroll/PayslipModal.tsx:47-56 | when every line is converted at one rate, the ZIG total is the USD total at that rate |
| PayslipTotals.AdditionTotals | components/Payroll/PayslipModal.tsx:47-48 | the additions total 1770 USD, and their ZIG total is 1770 at the rate |
| PayslipTotals.DeductionTotals | components/Payroll/PayslipModal.tsx:49-56 | the deductions total 850 USD, and their ZIG total is 850 at the rate |
| PayslipTotals.GrossUsd | components/Payroll/PayslipModal.tsx:193-195 | the USD gross pay is the base salary plus 1770 |
| PayslipTotals.AsWrittenGrossZigOmitsAdditions | components/Payroll/PayslipModal.tsx:198 | as written, the ZIG gross pay falls short of the USD gross pay at the rate by exactly the ZIG additions, even when the base salaries agree |
| PayslipTotals.GrossZigAtRate | components/Payroll/PayslipModal.tsx:193-198 | the corrected ZIG gross pay is the ZIG base plus 1770 at the rate, and equals the USD gross pay at the rate whenever the base salaries agree |
| PayslipTotals.NetAgreesWithTotalsIff | components/Payroll/PayslipModal.tsx:203-211 | the record's net pay agrees with gross less deductions exactly when it is the base salary plus 920 (at the rate, in ZIG) |
| PayslipLabels.Spread | src/components/Payroll/PayslipModal.tsx:102 | a capital letter A to Z gets a space in front; any other character stays alone |
| PayslipLabels.SpaceBeforeUpperAppend | src/components/Payroll/PayslipModal.tsx:102 | spreading a key works piece by piece: the spread of a concatenation is the concatenation of the spreads |
| PayslipLabels.SpaceBeforeUpperOnlyAddsSpaces | src/components/Payroll/PayslipModal.tsx:102 | the regular-expression replace only inserts spaces: removing all spaces gives the same text as removing them from the key |
| PayslipLabels.NoUpperIff | src/components/Payroll/PayslipModal.tsx:102 | the recursive test for capital letters agrees with the test on every position |
| PayslipLabels.NoUpperUnchanged | src/components/Payroll/PayslipModal.tsx:102 | a key without capital letters is not changed by the replace |
| PayslipLabels.TrimStart | src/components/Payroll/PayslipModal.tsx:102 | trimming the front never lengthens the text and leaves it starting with a non-white-space character or empty |
| PayslipLabels.TrimEnd | src/components/Payroll/PayslipModal.tsx:102 | trimming the end never lengthens the text and leaves it ending with a non-white-space character or empty |
| PayslipLabels.SpaceBeforeUpperLast | src/components/Payroll/PayslipModal.tsx:102 | the spread key ends with the key's last character |
| PayslipLabels.RowLabelOfKey | src/components/Payroll/PayslipModal.tsx:125 | for a key without surrounding white space, the label is the key with a space before each capital letter except a leading one |
| PayslipLabels.PlainKeyIsItsLabel | src/components/Payroll/PayslipModal.tsx:125 | a key without capital letters or surrounding white space is its own label |
| PayslipLabels.TwoWordLabel | src/components/Payroll/PayslipModal.tsx:102 | a two-word camel-case key reads as the two words separated by one space, whether or not the first word is capitalised |
| PayslipLabels.HousingAllowanceLabels | src/components/Payroll/PayslipModal.tsx:102 | "housingAllowance" reads "housing Allowance" and "HousingAllowance" reads "Housing Allowance" |
| PayslipLabels.Rows | src/components/Payroll/PayslipModal.tsx:98-114 | one row per entry, in entry order, labelled from its key, with the value in USD and the value at the rate in ZIG |
| PayslipLabels.RowsAtRate | src/components/Payroll/PayslipModal.tsx:108-110 | every row's ZIG value is its USD value at the salary's rate |
| PayslipLabels.SectionRows | src/components/Payroll/PayslipModal.tsx:98-138 | benefits rows come first and unmarked, deductions rows follow marked with "-", and every ZIG value is at the rate |
| Text.Lower | src/components/Payroll/EmployeeInformation.tsx:53 | lower-casing keeps the length and lower-cases each ASCII letter in place |
| Text.ContainsIff | src/components/Payroll/EmployeeInformation.tsx:53-54 | the left-to-right search finds the term exactly when it occurs at some offset |
| Text.IncludesIgnoresTermCase | src/components/Payroll/EmployeeInformation.tsx:53-54 | the search gives the same answer for a term and its lower-cased form |
| Text.IncludesSubstring | src/components/Payroll/EmployeeInformation.tsx:53-54 | every piece of a text, in any case, matches that text |
| Text.ContainsNeedsChar | src/components/Payroll/EmployeeInformation.tsx:53-54 | a text lacking one of the term's characters does not match it |
| Text.SplitJoin | src/components/Payroll/EmployeeInformation.tsx:93-98 | splitting a join on its separator gives the parts back when no part holds the separator |
| Text.QuotedRowOneLine | src/components/Payroll/EmployeeInformation.tsx:95-97 | a quoted CSV row whose cells hold no line break is one line |
| Text.CsvLines | src/components/Payroll/EmployeeInformation.tsx:93-98 | an export splits into the header line followed by exactly its rows, in order |
| Text.RemoveSpacesAppend | src/components/Payroll/PayslipModal.tsx:102 | removing spaces works piece by piece over a concatenation |
| Text.NatToString | components/HR/employees/TaxAndDeductions.tsx:68 | a count is written as decimal digits without a leading zero |
| Text.NatToStringValue | components/HR/employees/TaxAndDeductions.tsx:68 | reading the written count back gives the count |

## Left out

- HTTP: `Server.*` and `axios` calls are `Outcome` parameters. Request bodies and URLs are not modelled.
- Notifications and logging: `toast` and `console` calls have no state and are not modelled. The exception is the missing `toast` import listed under Findings.
- The simulated fetches of the recruitment screen resolve with fixed listings and candidates after a delay (components/HR/Recruitment.tsx:42-91). The model takes the resolved data as the argument of `LoadJobs` and `LoadCandidates`, so it holds for any listings.
- Timing and concurrency: mock delays are not modelled. `Promise.all` is treated as one outcome. Overlapping fetches that share one `loading` flag are modelled as one request at a time.
- Floating point: `parseFloat` results and exchange-rate products are exact reals, or whole cents where no rate is involved. `toFixed` of values of 1e21 or more, and of NaN, is not modelled.
- `formatUSD` delegates to `Intl.NumberFormat` and is not part of this model.
- The NaN ZIG figure that a row with a missing amount would show (components/Payroll/ProcessPayroll.tsx:388) is not modelled; a missing amount counts as zero.
- Dates: `new Date`, date-fns `format`, `addMonths`/`subMonths` and date parsing are reduced to (year, month) pairs, integer timestamps or parameters.
- DOM downloads: the Blob, object URL and link click around the CSV builders are not modelled. Only the CSV text is.
- PDF rendering (`PDFViewer`, `PDFDownloadLink`, the payslip template) is not part of this model.
- Static display screens, badge colours and icons are not part of this model.
- Unicode case mapping is not modelled: `toLowerCase` is modelled on ASCII letters only.
- ListView.RoundPercent: rounds the exact rational `100·part/whole`, while the pages round `(part / whole) * 100` computed in doubles. At an exact half the double can fall just below it, and the page then shows one less: 23/40 gives 57 on the page and 58 in the model, and 29/200, 57/200 and 113/200 behave the same way. The hiring rate (Recruitment.HiringRate) and the attendance on-time percentage inherit this.
- AppRoutes.Route and AppRoutes.UnknownPathsNotFound: paths are taken in the router's normal form, lower case and without a trailing slash. React Router v6 matches case-insensitively and ignores a trailing slash, so "/HR/Employees" or "/hr/employees/" reach the same page there; the model does not fold such spellings and would call them unknown.
- React Router internals are not modelled. Redirects and renders are results of the guard's decision functions.
- src/App.tsx renders the pages without `openTab`. The model keeps the open tab as a field of the sidebar state, set by the corrected handlers listed under Findings, and feeds the page switches from it directly.
- Browser storage that throws and `JSON.parse` are not modelled. Parsing the stored text is a function parameter that may fail.
- Deductions: the in-place line edits (components/Payroll/Deductions.tsx:279-280, 307-308, 331-332) mutate an object shared with the earlier state before copying the list. The model rebuilds the list on values, so that aliasing is not captured.
- Currencies.SortNewestFirst: the insertion sort swaps only on a strictly newer date, so it keeps equal dates in their order as `Array.prototype.sort` does; the contract states this only for a history that is already sorted, where it is left unchanged. NaN dates are not modelled.
- Currencies.LatestRate returns `None` on an empty history, where the page would throw.
- SalarySetup keeps salaries as the typed text, as the form does. Converting them to numbers is not modelled.
- SalarySetup.SalarySetupScreen.HandleSave uses the corrected save guard listed under Findings.
- Deductions: the entry form has no input for `newDeduction.type`, so it stays "voluntary" (components/Payroll/Deductions.tsx:29-34). The model also allows a statutory kind, which the screen never produces.
- PayslipGeneration.PayslipScreen.DownloadName has no file name for an employee without a name, where the page would throw.
- PayslipGeneration: the dialog's `onClose` only logs and is not modelled. The e-mail address shown while sending, and the position and department in the picker, are display only.
- PayslipLabels: `Object.entries` lists integer-like keys first in numeric order. The model takes the entries in the order given.
- PayslipLabels.IsWhiteSpace covers the ASCII white space and U+00A0, U+FEFF, U+2028 and U+2029. Other Unicode space separators that `trim` also removes are not modelled.
- PayslipTotals uses exact reals rather than floats. The payment date line is not modelled.
- The avatar initials of the attendance screen (components/HR/Attendence.tsx:201) are the same expression as `Recruitment.Initials`, so they are not modelled again.
- TaxSelection: the mandatory checkboxes are disabled (components/HR/employees/TaxAndDeductions.tsx:86), so only optional choices reach `ToggleSelection`. The static option lists are not modelled.
- TaxSelection.Dropdown.ToggleSelection reports the corrected list listed under Findings.
- EmployeeInformation.PayrollRecordsScreen.ProcessPayroll models `processPayroll` with `toast` imported, as listed under Findings.

## Findings

| source | as written | input that shows it | evidently intended | confidence | as-written member | corrected member |
|---|---|---|---|---|---|---|
| pages/AccountingPage.tsx:14 | the switch matches "accounting-currencies", without the leading "#" | the sidebar's Currencies sub-entry sets the open tab to "#accounting-currencies" (src/components/MainLayout.tsx:99), and the page shows the account dashboard | the Currencies sub-entry opens the currency manager | high; not executed | AccountingPage.AsWrittenCurrenciesUnreachable | AccountingPage.CurrenciesEntryOpensManager |
| components/Payroll/SalarySetup.tsx:81 | the save guard reads `formData.baseSalaryUSD` and `formData.baseSalaryZIG`, keys the form never holds | a form with USD "1000" and ZIG "12000" is rejected as if both were empty | only a form with an empty USD or ZIG salary is rejected | high; not executed | SalarySetup.AsWrittenSaveAlwaysRejected | SalarySetup.SaveGuardIntended |
| components/Payroll/PayslipModal.tsx:198 | the ZIG gross pay shows the ZIG base salary alone | rate 30 with base salaries 1000 USD and 30000 ZIG shows 30000 ZIG, while the USD column shows 2770 USD | the ZIG base salary plus the ZIG additions: 83100 ZIG, the USD gross pay at the rate | medium; not executed | PayslipTotals.AsWrittenGrossZigOmitsAdditions | PayslipTotals.GrossZigAtRate |
| src/components/Payroll/EmployeeInformation.tsx:81 | `toast` is used but never imported, so `toast.success` throws before `fetchPayrollRecords()` | any successful processing response: the records are not fetched again and the handler's promise rejects | a successful run shows its notice and refetches the records | high; not executed | EmployeeInformation.AsWrittenProcessNeverRefetches | EmployeeInformation.ImportedToastRefetchesOnSuccess |
| src/App.tsx:36 | every route renders `<MainLayout>` without the `setOpenTab` prop its handlers call (src/components/MainLayout.tsx:200, 208), so each call of `toggleItemExpand` or `handleNavigation` throws a TypeError | with the sidebar open, a desktop click on Sales, and any sub-entry click, changes nothing; a click on HR moves the router to /hr but never expands its sub-menu, so no sub-entry is ever listed | `setOpenTab` is passed down: a click on HR expands it, and Sales and the sub-entries open their pages and set the open tab | high; not executed | MainLayout.Sidebar.DesktopClickUnwired | MainLayout.Sidebar.DesktopClick |
| components/HR/employees/TaxAndDeductions.tsx:57 | `onSelect` always receives the earlier selection with the item appended | unticking a selected "CIMAS Medical Aid" reports a list that still holds it | the parent receives the selection after the toggle | high; not executed | TaxSelection.AsWrittenDeselectReportsItem | TaxSelection.ReportedFollowsToggle |
