/**
 * The second payroll page (src/pages/PayrollPage.tsx): the same switch with
 * only three named fragments.
 */
module SrcPayrollPage {
  import opened PayrollPage

  /** `renderContent()` of this page. */
  function Content(openTab: string): PayrollView {
    match openTab
    case "#payroll-setup" => PayrollDashboard
    case "#payroll-payslips" => PayslipGeneration
    case "#payroll-contributions" => Recruitment
    case _ => PayrollDashboard
  }

  /**
   * This page agrees with pages/PayrollPage.tsx on every string except the
   * three fragments only that page names, which this one shows as the dashboard.
   */
  lemma AgreesWithPayrollPage(openTab: string)
    ensures openTab !in {"#salary-setup", "#deductions", "#process-payroll"} ==>
      Content(openTab) == PayrollPage.Content(openTab)
    ensures openTab in {"#salary-setup", "#deductions", "#process-payroll"} ==>
      Content(openTab) == PayrollDashboard != PayrollPage.Content(openTab)
  {
  }
}
