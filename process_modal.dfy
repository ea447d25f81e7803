/**
 * The payroll processing dialog (src/components/Payroll/ProcessPayrollModal.tsx):
 * a four-step machine (validation, confirmation, processing, results) over
 * the dialog's state, reset when the dialog closes, with the validation
 * issues deciding whether the user may go on to processing.
 */
module ProcessModal {
  import opened Wrappers

  datatype Step = Validation | Confirmation | Processing | Results

  /** A validation finding; an `"error"` severity blocks processing. */
  datatype Issue = Issue(message: string, employeeCount: int, severity: string)

  datatype ValidationResults = ValidationResults(
    payrollMonth: string,
    employeeCount: int,
    totalPayrollUSD: int,
    totalPayrollZIG: int,
    issues: seq<Issue>)

  datatype PayrollDetails = PayrollDetails(
    payrollMonth: string,
    processedCount: int,
    totalAmountUSD: int,
    totalAmountZIG: int,
    failedCount: int,
    transactionId: string)

  const DefaultExchangeRate: real := 30.0
  const DefaultCurrency: string := "dual"

  /** `issues.some(i => i.severity === "error")`, scanned from the front. */
  predicate HasError(issues: seq<Issue>)
    decreases |issues|
  {
    issues != [] && (issues[0].severity == "error" || HasError(issues[1..]))
  }

  /** The scan finds an error exactly when some issue is one. */
  lemma {:induction false} HasErrorIff(issues: seq<Issue>)
    ensures HasError(issues) <==> exists k :: 0 <= k < |issues| && issues[k].severity == "error"
    decreases |issues|
  {
    if issues != [] {
      HasErrorIff(issues[1..]);
      if HasError(issues[1..]) {
        var k :| 0 <= k < |issues[1..]| && issues[1..][k].severity == "error";
        assert issues[k + 1] == issues[1..][k];
      }
      if exists k :: 0 <= k < |issues| && issues[k].severity == "error" {
        var k :| 0 <= k < |issues| && issues[k].severity == "error";
        if k > 0 {
          assert issues[1..][k - 1] == issues[k];
        }
      }
    }
  }

  /** One more issue blocks processing exactly when it is an error or something already did. */
  lemma {:induction false} HasErrorAppend(issues: seq<Issue>, more: Issue)
    ensures HasError(issues + [more]) <==> HasError(issues) || more.severity == "error"
    decreases |issues|
  {
    if issues == [] {
      assert issues + [more] == [more];
      assert [more][1..] == [];
    } else {
      assert (issues + [more])[1..] == issues[1..] + [more];
      HasErrorAppend(issues[1..], more);
    }
  }

  /** "Continue to Processing" is disabled exactly when an issue has severity `"error"`. */
  predicate ContinueDisabled(results: ValidationResults) {
    HasError(results.issues)
  }

  /** The confirmation step's description of the payment currency; an unknown option reads as empty. */
  function CurrencyLabel(option: string): (text: string)
    ensures option == "dual" ==> text == "Dual Currency (USD & ZIG)"
    ensures option == "usd" ==> text == "USD Only"
    ensures option == "zig" ==> text == "ZIG Only"
    ensures option !in {"dual", "usd", "zig"} ==> text == ""
  {
    match option
    case "dual" => "Dual Currency (USD & ZIG)"
    case "usd" => "USD Only"
    case "zig" => "ZIG Only"
    case _ => ""
  }

  /** The three options the buttons offer are told apart by their labels, and none reads as empty. */
  lemma CurrencyLabelsDistinct(a: string, b: string)
    requires a in {"dual", "usd", "zig"} && b in {"dual", "usd", "zig"}
    ensures CurrencyLabel(a) != ""
    ensures CurrencyLabel(a) == CurrencyLabel(b) <==> a == b
  {
  }

  /** The dialog's state. `isOpen` is the parent's prop. */
  class PayrollModal {
    var isOpen: bool
    var loading: bool
    var validationResults: Option<ValidationResults>
    var exchangeRate: real
    var selectedCurrency: string
    var processingStep: Step
    var payrollDetails: Option<PayrollDetails>

    /** The results step always has details to show. */
    predicate Valid()
      reads this
    {
      processingStep == Results ==> payrollDetails.Some?
    }

    /** The first render: rate 30, dual currency, the validation step, nothing fetched yet. */
    constructor (open: bool)
      ensures Valid()
      ensures isOpen == open && !loading && validationResults.None? && payrollDetails.None?
      ensures exchangeRate == DefaultExchangeRate && selectedCurrency == DefaultCurrency && processingStep == Validation
    {
      isOpen := open;
      loading := false;
      validationResults := None;
      exchangeRate := DefaultExchangeRate;
      selectedCurrency := DefaultCurrency;
      processingStep := Validation;
      payrollDetails := None;
    }

    /** Nothing is rendered while closed; otherwise the current step's panel. */
    function Shown(): (panel: Option<Step>)
      reads this
      ensures panel.None? <==> !isOpen
      ensures panel.Some? ==> panel.value == processingStep
    {
      if isOpen then Some(processingStep) else None
    }

    /** The close button is disabled while something loads. */
    function CloseEnabled(): bool
      reads this
    {
      !loading
    }

    /**
     * The effect on `isOpen`: opening starts the validation fetch; closing
     * drops the results and the details and goes back to the validation step.
     */
    method OpenChanged(open: bool)
      requires Valid()
      modifies this`isOpen, this`loading, this`validationResults, this`processingStep, this`payrollDetails
      ensures Valid() && isOpen == open
      ensures open ==> (loading && validationResults == old(validationResults)
                        && processingStep == old(processingStep) && payrollDetails == old(payrollDetails))
      ensures !open ==> (validationResults.None? && processingStep == Validation && payrollDetails.None?
                         && loading == old(loading))
    {
      isOpen := open;
      if open {
        loading := true;
      } else {
        validationResults := None;
        processingStep := Validation;
        payrollDetails := None;
      }
    }

    /** The validation fetch returns: on success its results are shown at the validation step. */
    method FinishValidation(response: Outcome<ValidationResults>)
      requires Valid()
      modifies this`loading, this`validationResults, this`processingStep
      ensures Valid() && !loading
      ensures response.Ok? ==> validationResults == Some(response.payload) && processingStep == Validation
      ensures response.Failed? ==> validationResults == old(validationResults) && processingStep == old(processingStep)
    {
      if response.Ok? {
        validationResults := Some(response.payload);
        processingStep := Validation;
      }
      loading := false;
    }

    /** "Fetch Latest Rate": a failure keeps the rate in use. */
    method FetchExchangeRate(response: Outcome<real>)
      modifies this`exchangeRate
      ensures exchangeRate == if response.Ok? then response.payload else old(exchangeRate)
    {
      if response.Ok? {
        exchangeRate := response.payload;
      }
    }

    method SetExchangeRate(rate: real)
      modifies this`exchangeRate
      ensures exchangeRate == rate
    {
      exchangeRate := rate;
    }

    method SetCurrency(option: string)
      modifies this`selectedCurrency
      ensures selectedCurrency == option
    {
      selectedCurrency := option;
    }

    /** `handleConfirm`. */
    method HandleConfirm()
      requires Valid()
      modifies this`processingStep
      ensures Valid() && processingStep == Confirmation
    {
      processingStep := Confirmation;
    }

    /**
     * A click on "Continue to Processing", which is rendered only at the
     * validation step once loading is over; a disabled button does nothing.
     */
    method ClickContinue()
      requires Valid() && processingStep == Validation && !loading
      modifies this`processingStep
      ensures Valid()
      ensures validationResults.Some? && !ContinueDisabled(validationResults.value) ==> processingStep == Confirmation
      ensures validationResults.None? || ContinueDisabled(validationResults.value) ==> processingStep == old(processingStep)
    {
      if validationResults.Some? && !ContinueDisabled(validationResults.value) {
        HandleConfirm();
      }
    }

    /** `handleBack`. */
    method HandleBack()
      requires Valid()
      modifies this`processingStep
      ensures Valid() && processingStep == Validation
    {
      processingStep := Validation;
    }

    /** `processPayroll` before its call returns: loading, at the processing step. */
    method StartProcessing()
      requires Valid()
      modifies this`loading, this`processingStep
      ensures Valid() && loading && processingStep == Processing
    {
      loading := true;
      processingStep := Processing;
    }

    /**
     * `processPayroll` once the call returns: success shows the results with
     * the returned details and notifies the parent; a failure goes back to
     * validation. Loading ends either way.
     */
    method FinishProcessing(response: Outcome<PayrollDetails>) returns (notified: bool)
      requires Valid()
      modifies this`loading, this`processingStep, this`payrollDetails
      ensures Valid() && !loading
      ensures notified <==> response.Ok?
      ensures response.Ok? ==> processingStep == Results && payrollDetails == Some(response.payload)
      ensures response.Failed? ==> processingStep == Validation && payrollDetails == old(payrollDetails)
    {
      if response.Ok? {
        payrollDetails := Some(response.payload);
        processingStep := Results;
      } else {
        processingStep := Validation;
      }
      notified := response.Ok?;
      loading := false;
    }
  }
}
