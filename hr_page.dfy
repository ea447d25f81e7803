/** The HR page (pages/HRPage.tsx): which view `renderContent` shows for an open-tab string. */
module HrPage {
  import MainLayout

  datatype HrView = Payroll | Employees | Attendance | Recruitment | HrDashboard

  /** `renderContent()`: a switch on `openTab` with the dashboard as default. */
  function Content(openTab: string): HrView {
    match openTab
    case "#hr-payroll" => Payroll
    case "#hr-employees" => Employees
    case "#hr-attendance" => Attendance
    case "#hr-recruitment" => Recruitment
    case _ => HrDashboard
  }

  /** Every string other than the four named fragments, the empty one included, shows the dashboard. */
  lemma DefaultIsDashboard(openTab: string)
    requires openTab !in {"#hr-payroll", "#hr-employees", "#hr-attendance", "#hr-recruitment"}
    ensures Content(openTab) == HrDashboard
  {
  }

  /**
   * What each HR sub-entry of the sidebar opens, in menu order: employees,
   * attendance and recruitment have their own views, while performance and
   * training fall through to the dashboard. The payroll view is reached by no
   * sidebar entry.
   */
  lemma SidebarFragments()
    ensures MainLayout.NavItems[1].subItems.Some?
    ensures var subs := MainLayout.NavItems[1].subItems.value;
      |subs| == 5
      && forall k :: 0 <= k < |subs| ==>
           Content(subs[k].path) == [Employees, Attendance, Recruitment, HrDashboard, HrDashboard][k]
  {
  }
}
