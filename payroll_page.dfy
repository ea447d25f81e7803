/** The payroll page (pages/PayrollPage.tsx): which view `renderContent` shows for an open-tab string. */
module PayrollPage {
  import MainLayout

  datatype PayrollView = PayrollDashboard | PayslipGeneration | Recruitment | SalarySetup | Deductions | ProcessPayroll

  /** `renderContent()`: a switch on `openTab` with the payroll dashboard as default. */
  function Content(openTab: string): PayrollView {
    match openTab
    case "#payroll-setup" => PayrollDashboard
    case "#payroll-payslips" => PayslipGeneration
    case "#payroll-contributions" => Recruitment
    case "#salary-setup" => SalarySetup
    case "#deductions" => Deductions
    case "#process-payroll" => ProcessPayroll
    case _ => PayrollDashboard
  }

  /** The setup fragment shows the same view as any unknown string, the empty one included. */
  lemma SetupIsDefault(openTab: string)
    requires openTab !in {"#payroll-payslips", "#payroll-contributions", "#salary-setup", "#deductions", "#process-payroll"}
    ensures Content(openTab) == Content("#payroll-setup") == PayrollDashboard
  {
  }

  /**
   * What each payroll sub-entry of the sidebar opens, in menu order. Only
   * payslips and contributions leave the dashboard, so the salary-setup,
   * deductions and processing views are reached by no sidebar entry.
   */
  lemma SidebarFragments()
    ensures MainLayout.NavItems[2].subItems.Some?
    ensures var subs := MainLayout.NavItems[2].subItems.value;
      |subs| == 6
      && (forall k :: 0 <= k < |subs| ==>
           Content(subs[k].path) == [PayrollDashboard, PayrollDashboard, PayslipGeneration,
                                     PayrollDashboard, PayrollDashboard, Recruitment][k])
      && (forall k :: 0 <= k < |subs| ==> Content(subs[k].path) !in {SalarySetup, Deductions, ProcessPayroll})
  {
  }
}
