/**
 * The payslip dialog of a payroll record (components/Payroll/PayslipModal.tsx):
 * four fixed additions and four fixed deductions in USD, each with its ZIG
 * amount at the record's exchange rate, their totals, the gross pay and the
 * net pay. Amounts are exact reals; the number formatting is not part of
 * this model.
 */
module PayslipTotals {

  /** One earnings or deductions line, in both currencies. */
  datatype Line = Line(name: string, usd: real, zig: real)

  /** The fields of a payroll record the dialog reads. */
  datatype PayrollRecord = PayrollRecord(
    employeeName: string,
    employeeId: string,
    period: string,
    exchangeRate: real,
    baseSalaryUsd: real,
    baseSalaryZig: real,
    netSalaryUsd: real,
    netSalaryZig: real)

  /** A USD amount with its ZIG amount at the rate. */
  function AtRate(name: string, usd: real, rate: real): (l: Line)
    ensures l.name == name && l.usd == usd && l.zig == usd * rate
  {
    Line(name, usd, usd * rate)
  }

  /** Every line's ZIG amount is its USD amount at the rate. */
  predicate ConvertedAt(lines: seq<Line>, rate: real) {
    forall k :: 0 <= k < |lines| ==> lines[k].zig == lines[k].usd * rate
  }

  /** The mock additions. */
  function Additions(rate: real): (r: seq<Line>)
    ensures |r| == 4 && ConvertedAt(r, rate)
  {
    [AtRate("Housing Allowance", 500.0, rate), AtRate("Transport Allowance", 200.0, rate),
     AtRate("Performance Bonus", 750.0, rate), AtRate("Overtime Pay", 320.0, rate)]
  }

  /** The mock deductions. */
  function Deductions(rate: real): (r: seq<Line>)
    ensures |r| == 4 && ConvertedAt(r, rate)
  {
    [AtRate("Income Tax", 350.0, rate), AtRate("Social Security", 180.0, rate),
     AtRate("Health Insurance", 120.0, rate), AtRate("Loan Deduction", 200.0, rate)]
  }

  /** `lines.reduce((sum, item) => sum + item.usd, 0)`. */
  function TotalUsd(lines: seq<Line>): real
    decreases |lines|
  {
    if lines == [] then 0.0 else lines[0].usd + TotalUsd(lines[1..])
  }

  /** `lines.reduce((sum, item) => sum + item.zig, 0)`. */
  function TotalZig(lines: seq<Line>): real
    decreases |lines|
  {
    if lines == [] then 0.0 else lines[0].zig + TotalZig(lines[1..])
  }

  /** When every line is converted at one rate, so is the total. */
  lemma {:induction false} TotalZigAtRate(lines: seq<Line>, rate: real)
    requires ConvertedAt(lines, rate)
    ensures TotalZig(lines) == TotalUsd(lines) * rate
    decreases |lines|
  {
    if lines != [] {
      assert ConvertedAt(lines[1..], rate) by {
        forall k | 0 <= k < |lines[1..]| ensures lines[1..][k].zig == lines[1..][k].usd * rate {
          assert lines[1..][k] == lines[k + 1];
        }
      }
      TotalZigAtRate(lines[1..], rate);
      assert lines[0].zig == lines[0].usd * rate;
    }
  }

  /** The additions come to 1770 USD, and their ZIG total is that at the rate. */
  lemma AdditionTotals(rate: real)
    ensures TotalUsd(Additions(rate)) == 1770.0
    ensures TotalZig(Additions(rate)) == 1770.0 * rate
  {
    var a := Additions(rate);
    assert TotalUsd(a[3..]) == 320.0;
    assert TotalUsd(a[2..]) == 750.0 + TotalUsd(a[3..]);
    assert TotalUsd(a[1..]) == 200.0 + TotalUsd(a[2..]);
    TotalZigAtRate(a, rate);
  }

  /** The deductions come to 850 USD, and their ZIG total is that at the rate. */
  lemma DeductionTotals(rate: real)
    ensures TotalUsd(Deductions(rate)) == 850.0
    ensures TotalZig(Deductions(rate)) == 850.0 * rate
  {
    var d := Deductions(rate);
    assert TotalUsd(d[3..]) == 200.0;
    assert TotalUsd(d[2..]) == 120.0 + TotalUsd(d[3..]);
    assert TotalUsd(d[1..]) == 180.0 + TotalUsd(d[2..]);
    TotalZigAtRate(d, rate);
  }

  /** The USD gross pay: the base salary plus the additions. */
  function GrossUsd(rec: PayrollRecord): (r: real)
    ensures r == rec.baseSalaryUsd + 1770.0
  {
    AdditionTotals(rec.exchangeRate);
    rec.baseSalaryUsd + TotalUsd(Additions(rec.exchangeRate))
  }

  /** The ZIG gross pay as the dialog shows it: the ZIG base salary alone. */
  function GrossZigAsWritten(rec: PayrollRecord): real {
    rec.baseSalaryZig
  }

  /**
   * The ZIG gross pay as shown leaves out the additions, so it is not the
   * USD gross pay at the rate even when the base salaries agree; for example
   * at rate 30 with base salaries 1000 USD and 30000 ZIG it shows 30000
   * instead of 83100.
   */
  lemma AsWrittenGrossZigOmitsAdditions(rec: PayrollRecord)
    requires rec.exchangeRate > 0.0 && rec.baseSalaryZig == rec.baseSalaryUsd * rec.exchangeRate
    ensures GrossZigAsWritten(rec) == GrossUsd(rec) * rec.exchangeRate - 1770.0 * rec.exchangeRate
    ensures GrossZigAsWritten(rec) != GrossUsd(rec) * rec.exchangeRate
  {
    assert GrossUsd(rec) * rec.exchangeRate == rec.baseSalaryUsd * rec.exchangeRate + 1770.0 * rec.exchangeRate;
  }

  /** The ZIG gross pay with the ZIG additions, as the USD column computes it. */
  function GrossZig(rec: PayrollRecord): real {
    rec.baseSalaryZig + TotalZig(Additions(rec.exchangeRate))
  }

  /** The corrected ZIG gross pay is the USD gross pay at the rate whenever the base salaries agree. */
  lemma GrossZigAtRate(rec: PayrollRecord)
    ensures GrossZig(rec) == rec.baseSalaryZig + 1770.0 * rec.exchangeRate
    ensures rec.baseSalaryZig == rec.baseSalaryUsd * rec.exchangeRate ==>
      GrossZig(rec) == GrossUsd(rec) * rec.exchangeRate
  {
    AdditionTotals(rec.exchangeRate);
    assert GrossUsd(rec) * rec.exchangeRate == rec.baseSalaryUsd * rec.exchangeRate + 1770.0 * rec.exchangeRate;
  }

  /**
   * The net pay is read from the record, not computed: it equals the gross
   * pay less the deductions exactly when the record's net is the base salary
   * plus 920 (1770 of additions less 850 of deductions).
   */
  lemma NetAgreesWithTotalsIff(rec: PayrollRecord)
    ensures rec.netSalaryUsd == GrossUsd(rec) - TotalUsd(Deductions(rec.exchangeRate))
            <==> rec.netSalaryUsd == rec.baseSalaryUsd + 920.0
    ensures rec.netSalaryZig == GrossZig(rec) - TotalZig(Deductions(rec.exchangeRate))
            <==> rec.netSalaryZig == rec.baseSalaryZig + 920.0 * rec.exchangeRate
  {
    DeductionTotals(rec.exchangeRate);
    GrossZigAtRate(rec);
  }
}
