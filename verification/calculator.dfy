/**
 * Take-home pay of a daily-wage construction worker: gross pay, the ordered
 * list of deductions, their total and the net pay, under either the flat 3.3%
 * withholding scheme or the standard payroll scheme (employment insurance,
 * optional national pension and health + long-term-care insurance, income tax
 * with local surtax above a non-taxable daily threshold).
 *
 * Rates are exact decimals, so every product is the exact rational one.
 * Python's int() is modelled by Trunc, which drops the fraction toward zero
 * for either sign, so the calculator is defined for every input, as the code is.
 */
module Deductions {

  /** The deduction scheme picked on the form. */
  datatype Scheme = Standard | Flat33

  /** The four values the form collects. */
  datatype Input = Input(dailyWage: int, workDays: real, scheme: Scheme, applyInsurance: bool)

  /** One entry of the label-to-amount breakdown; the order of a seq<Line> is insertion order. */
  datatype Line = Line(key: string, amount: real)

  /** What the calculator hands to the display. */
  datatype Outcome = Outcome(grossPay: real, deductions: seq<Line>, totalDeduction: real, netPay: real)

  // Non-taxable part of a daily wage, in won.
  const NonTaxableDaily: int := 150000
  // Income tax: 6% statutory rate, of which 45% is payable after the 55% reduction.
  const IncomeTaxRate: real := 0.06
  const IncomeTaxPayable: real := 0.45
  // Local income tax: 10% of the income tax.
  const LocalTaxRate: real := 0.1
  // Employee shares of the social insurances.
  const EmploymentRate: real := 0.009
  const PensionRate: real := 0.045
  const HealthRate: real := 0.03545
  // Long-term care: a share of the health insurance amount.
  const CareRate: real := 0.1295
  // Flat withholding of the contractor scheme.
  const FlatRate: real := 0.033

  const FlatLabel: string := "사업소득세(3.3%)"
  const EmploymentLabel: string := "고용보험(0.9%)"
  const PensionLabel: string := "국민연금(4.5%)"
  const HealthLabel: string := "건강보험+요양"
  const IncomeTaxLabel: string := "소득세(지방세 포함)"

  /** Python's int() on a number: the fractional part is dropped, toward zero. */
  function Trunc(x: real): (t: int)
    ensures 0.0 <= x ==> 0 <= t && t as real <= x < t as real + 1.0
    ensures x < 0.0 ==> t <= 0 && x <= t as real < x + 1.0
  {
    if x >= 0.0 then x.Floor else -((-x).Floor)
  }

  function GrossPay(wage: int, days: real): real
  {
    wage as real * days
  }

  /** The part of the daily wage above the non-taxable threshold, never below zero. */
  function TaxableDaily(wage: int): (b: int)
    ensures 0 <= b && wage - NonTaxableDaily <= b
    ensures b == 0 || b == wage - NonTaxableDaily
  {
    if wage - NonTaxableDaily > 0 then wage - NonTaxableDaily else 0
  }

  function DailyIncomeTax(wage: int): real
  {
    TaxableDaily(wage) as real * IncomeTaxRate * IncomeTaxPayable
  }

  function DailyLocalTax(wage: int): real
  {
    DailyIncomeTax(wage) * LocalTaxRate
  }

  /** Income tax plus local tax: each per-day amount is multiplied by the days, then truncated. */
  function IncomeTaxLine(wage: int, days: real): int
  {
    Trunc(DailyIncomeTax(wage) * days) + Trunc(DailyLocalTax(wage) * days)
  }

  function EmploymentInsurance(gross: real): int
  {
    Trunc(gross * EmploymentRate)
  }

  function NationalPension(gross: real): int
  {
    Trunc(gross * PensionRate)
  }

  function HealthInsurance(gross: real): int
  {
    Trunc(gross * HealthRate)
  }

  /** Long-term care is a share of the already truncated health insurance amount. */
  function CareInsurance(health: int): int
  {
    Trunc(health as real * CareRate)
  }

  function HealthAndCare(gross: real): int
  {
    HealthInsurance(gross) + CareInsurance(HealthInsurance(gross))
  }

  /** Sum of the amounts of a breakdown, as Python's sum() over the dictionary values. */
  function Sum(lines: seq<Line>): real
  {
    if lines == [] then 0.0 else lines[0].amount + Sum(lines[1..])
  }

  function Labels(lines: seq<Line>): (ls: seq<string>)
    ensures |ls| == |lines|
    ensures forall k :: 0 <= k < |lines| ==> ls[k] == lines[k].key
  {
    seq(|lines|, k requires 0 <= k < |lines| => lines[k].key)
  }

  /** The standard scheme's breakdown: employment insurance, then pension and
      health + care when insurance applies, then income tax; zero amounts kept. */
  function StandardLines(wage: int, days: real, applyInsurance: bool): seq<Line>
  {
    var gross := GrossPay(wage, days);
    [Line(EmploymentLabel, EmploymentInsurance(gross) as real)]
    + (if applyInsurance
       then [Line(PensionLabel, NationalPension(gross) as real),
             Line(HealthLabel, HealthAndCare(gross) as real)]
       else [])
    + [Line(IncomeTaxLabel, IncomeTaxLine(wage, days) as real)]
  }

  /** The calculation run when the button is pressed. The flat scheme never reads the insurance flag. */
  function Calculate(input: Input): (r: Outcome)
    ensures r.grossPay == input.dailyWage as real * input.workDays
    ensures r.totalDeduction == Sum(r.deductions)
    ensures r.netPay == r.grossPay - r.totalDeduction
  {
    var gross := GrossPay(input.dailyWage, input.workDays);
    var (lines, total) :=
      match input.scheme
      case Flat33 =>
        var tax := gross * FlatRate;
        assert [Line(FlatLabel, tax)][1..] == [];
        ([Line(FlatLabel, tax)], tax)
      case Standard =>
        var ls := StandardLines(input.dailyWage, input.workDays, input.applyInsurance);
        (ls, Sum(ls));
    Outcome(gross, lines, total, gross - total)
  }

  // ---------------------------------------------------------------------------
  // Sums
  // ---------------------------------------------------------------------------

  /** The standard breakdown written out. */
  lemma StandardLinesListed(wage: int, days: real, applyInsurance: bool)
    ensures var gross := GrossPay(wage, days);
      var e := Line(EmploymentLabel, EmploymentInsurance(gross) as real);
      var t := Line(IncomeTaxLabel, IncomeTaxLine(wage, days) as real);
      StandardLines(wage, days, applyInsurance) ==
        if applyInsurance
        then [e, Line(PensionLabel, NationalPension(gross) as real),
              Line(HealthLabel, HealthAndCare(gross) as real), t]
        else [e, t]
  {
  }

  /** Truncate-then-sum: the standard total is the sum of the truncated subtotals. */
  lemma StandardTotal(wage: int, days: real, applyInsurance: bool)
    ensures var gross := GrossPay(wage, days);
      Sum(StandardLines(wage, days, applyInsurance)) ==
        (EmploymentInsurance(gross)
         + (if applyInsurance then NationalPension(gross) + HealthAndCare(gross) else 0)
         + IncomeTaxLine(wage, days)) as real
  {
    var gross := GrossPay(wage, days);
    var e := Line(EmploymentLabel, EmploymentInsurance(gross) as real);
    var t := Line(IncomeTaxLabel, IncomeTaxLine(wage, days) as real);
    StandardLinesListed(wage, days, applyInsurance);
    if applyInsurance {
      SumOfFour(e, Line(PensionLabel, NationalPension(gross) as real),
                Line(HealthLabel, HealthAndCare(gross) as real), t);
    } else {
      SumOfTwo(e, t);
    }
  }

  lemma SumOfTwo(a: Line, b: Line)
    ensures Sum([a, b]) == a.amount + b.amount
  {
    assert [a, b][1..] == [b];
    assert [b][1..] == [];
    assert Sum([b]) == b.amount + Sum([]);
  }

  lemma SumOfFour(a: Line, b: Line, c: Line, d: Line)
    ensures Sum([a, b, c, d]) == a.amount + b.amount + c.amount + d.amount
  {
    var s := [a, b, c, d];
    assert s[1..] == [b, c, d];
    assert s[1..][1..] == [c, d];
    SumOfTwo(c, d);
  }

  lemma {:induction false} SumAppend(a: seq<Line>, b: seq<Line>)
    ensures Sum(a + b) == Sum(a) + Sum(b)
  {
    if a == [] {
      assert a + b == b;
    } else {
      assert (a + b)[1..] == a[1..] + b;
      SumAppend(a[1..], b);
    }
  }

  lemma {:induction false} SumNonNegative(lines: seq<Line>)
    requires forall k :: 0 <= k < |lines| ==> lines[k].amount >= 0.0
    ensures Sum(lines) >= 0.0
  {
    if lines != [] {
      SumNonNegative(lines[1..]);
    }
  }

  // ---------------------------------------------------------------------------
  // Flat 3.3% scheme
  // ---------------------------------------------------------------------------

  /** One untruncated line of 3.3% of gross pay, which is also the total. */
  lemma FlatScheme(input: Input)
    requires input.scheme == Flat33
    ensures var r := Calculate(input);
      && r.deductions == [Line(FlatLabel, r.grossPay * FlatRate)]
      && r.totalDeduction == r.grossPay * FlatRate
      && r.netPay == r.grossPay * 0.967
  {
  }

  /** The flat line is not truncated: a total with a fraction of a won can come out. */
  lemma FlatTotalMayBeFractional()
    ensures Calculate(Input(10, 1.0, Flat33, false)).totalDeduction == 0.33
  {
  }

  /** The insurance flag has no effect under the flat scheme. */
  lemma FlatIgnoresInsuranceFlag(wage: int, days: real)
    ensures Calculate(Input(wage, days, Flat33, true)) == Calculate(Input(wage, days, Flat33, false))
  {
  }

  // ---------------------------------------------------------------------------
  // Standard scheme: the shape of the breakdown
  // ---------------------------------------------------------------------------

  /** Employment insurance is always first and income tax always last; pension
      and health + care appear between them, in that order, exactly when
      insurance applies. Lines of zero amount are kept. */
  lemma StandardShape(input: Input)
    requires input.scheme == Standard
    ensures var ls := Labels(Calculate(input).deductions);
      if input.applyInsurance
      then ls == [EmploymentLabel, PensionLabel, HealthLabel, IncomeTaxLabel]
      else ls == [EmploymentLabel, IncomeTaxLabel]
  {
    var lines := Calculate(input).deductions;
    StandardLinesListed(input.dailyWage, input.workDays, input.applyInsurance);
    var ls := Labels(lines);
    if input.applyInsurance {
      assert |ls| == 4 && ls[0] == EmploymentLabel && ls[1] == PensionLabel;
      assert ls[2] == HealthLabel && ls[3] == IncomeTaxLabel;
    } else {
      assert |ls| == 2 && ls[0] == EmploymentLabel && ls[1] == IncomeTaxLabel;
    }
  }

  /** Employment insurance, the first standard line, is 0.9% of gross pay, truncated. */
  lemma EmploymentInsuranceFirst(input: Input)
    requires input.scheme == Standard
    ensures var r := Calculate(input);
      r.deductions[0] == Line(EmploymentLabel, Trunc(r.grossPay * 0.009) as real)
  {
    StandardLinesListed(input.dailyWage, input.workDays, input.applyInsurance);
  }

  /** With insurance, the pension line is 4.5% of gross pay, truncated. */
  lemma PensionLine(input: Input)
    requires input.scheme == Standard && input.applyInsurance
    ensures var r := Calculate(input);
      r.deductions[1] == Line(PensionLabel, Trunc(r.grossPay * 0.045) as real)
  {
    StandardLinesListed(input.dailyWage, input.workDays, input.applyInsurance);
  }

  /** With insurance, the health + care line is h plus 12.95% of h, truncated,
      where h is 3.545% of gross pay, truncated: care is taken from the
      already truncated health amount. */
  lemma HealthAndCareLine(input: Input)
    requires input.scheme == Standard && input.applyInsurance
    ensures var r := Calculate(input);
      var h := Trunc(r.grossPay * 0.03545);
      r.deductions[2] == Line(HealthLabel, (h + Trunc(h as real * 0.1295)) as real)
  {
    StandardLinesListed(input.dailyWage, input.workDays, input.applyInsurance);
  }

  /** The last standard line is income tax with local tax, present even when zero. */
  lemma IncomeTaxLast(input: Input)
    requires input.scheme == Standard
    ensures var r := Calculate(input);
      && |r.deductions| >= 2
      && r.deductions[|r.deductions| - 1] ==
           Line(IncomeTaxLabel, IncomeTaxLine(input.dailyWage, input.workDays) as real)
  {
    StandardLinesListed(input.dailyWage, input.workDays, input.applyInsurance);
  }

  /** The breakdown is a faithful dictionary: no label occurs twice. */
  lemma LabelsDistinct(input: Input)
    ensures var ls := Labels(Calculate(input).deductions);
      forall i, j :: 0 <= i < j < |ls| ==> ls[i] != ls[j]
  {
  }

  /** Truncate-then-sum: the standard total is a whole number of won. */
  lemma StandardTotalIsWhole(input: Input)
    requires input.scheme == Standard
    ensures var total := Calculate(input).totalDeduction;
      total == total.Floor as real
  {
    StandardTotal(input.dailyWage, input.workDays, input.applyInsurance);
  }

  // ---------------------------------------------------------------------------
  // Standard scheme: income tax
  // ---------------------------------------------------------------------------

  /** Up to the threshold no income tax is due, whatever the number of days. */
  lemma IncomeTaxFreeUpToThreshold(wage: int, days: real)
    requires wage <= NonTaxableDaily
    ensures IncomeTaxLine(wage, days) == 0
  {
  }

  /** For non-negative days the income-tax line is zero exactly when the
      untruncated income tax over all days stays below one won. */
  lemma {:induction false} IncomeTaxZeroIff(wage: int, days: real)
    requires days >= 0.0
    ensures IncomeTaxLine(wage, days) == 0 <==> DailyIncomeTax(wage) * days < 1.0
  {
    var x := DailyIncomeTax(wage) * days;
    assert DailyLocalTax(wage) * days == x * LocalTaxRate;
    assert 0.0 <= x by {
      assert 0.0 <= DailyIncomeTax(wage);
    }
  }

  /** The income-tax line is the exact 2.97% of the taxable base over all days,
      less under two won of truncation. */
  lemma {:induction false} IncomeTaxBounds(wage: int, days: real)
    requires days >= 0.0
    ensures var exact := TaxableDaily(wage) as real * days * 0.0297;
      exact - 2.0 < IncomeTaxLine(wage, days) as real <= exact
  {
    var b := TaxableDaily(wage) as real;
    var bd := b * days;
    MulMonotone(0.0, b, days);
    assert DailyIncomeTax(wage) * days == bd * 0.027;
    assert DailyLocalTax(wage) * days == bd * 0.0027;
  }

  /** The rounding policy the code does not use: truncate a daily amount each
      day and add the truncated amounts up over n whole days. */
  function TruncatedDaily(x: real, n: nat): int
  {
    if n == 0 then 0 else TruncatedDaily(x, n - 1) + Trunc(x)
  }

  lemma {:induction false} TruncatedDailyIsProduct(x: real, n: nat)
    ensures TruncatedDaily(x, n) == n * Trunc(x)
  {
    if n > 0 {
      TruncatedDailyIsProduct(x, n - 1);
    }
  }

  /** Truncating the amount for all n days at once never yields less than
      truncating it day by day. */
  lemma TruncateOnce(x: real, n: nat)
    requires 0.0 <= x
    ensures TruncatedDaily(x, n) <= Trunc(x * n as real)
  {
    TruncateRepeatedSum(x, n);
    RepeatedSumIsProduct(x, n);
  }

  /** x added up n times. */
  function RepeatedSum(x: real, n: nat): real
  {
    if n == 0 then 0.0 else RepeatedSum(x, n - 1) + x
  }

  lemma {:induction false} RepeatedSumIsProduct(x: real, n: nat)
    ensures RepeatedSum(x, n) == x * n as real
  {
    if n > 0 {
      RepeatedSumIsProduct(x, n - 1);
      assert x * n as real == x * (n - 1) as real + x;
    }
  }

  lemma {:induction false} TruncateRepeatedSum(x: real, n: nat)
    requires 0.0 <= x
    ensures 0.0 <= RepeatedSum(x, n) && TruncatedDaily(x, n) <= Trunc(RepeatedSum(x, n))
  {
    if n > 0 {
      TruncateRepeatedSum(x, n - 1);
      TruncSuperadditive(RepeatedSum(x, n - 1), x);
    }
  }

  lemma TruncSuperadditive(a: real, b: real)
    requires 0.0 <= a && 0.0 <= b
    ensures Trunc(a) + Trunc(b) <= Trunc(a + b)
  {
    TruncAtLeast(Trunc(a) + Trunc(b), a + b);
  }

  /** The income-tax line truncates the income tax and the local tax once over
      the whole period; that is never less than truncating them day by day over
      the same whole number of days. */
  lemma {:induction false} TruncateAfterMultiplying(wage: int, n: nat)
    ensures var x, y := DailyIncomeTax(wage), DailyLocalTax(wage);
      TruncatedDaily(x, n) + TruncatedDaily(y, n) <= Trunc(x * n as real) + Trunc(y * n as real)
  {
    DailyTaxesNonNegative(wage);
    TruncateOnceBoth(DailyIncomeTax(wage), DailyLocalTax(wage), n);
  }

  lemma TruncateOnceBoth(x: real, y: real, n: nat)
    requires 0.0 <= x && 0.0 <= y
    ensures TruncatedDaily(x, n) + TruncatedDaily(y, n) <= Trunc(x * n as real) + Trunc(y * n as real)
  {
    TruncateOnce(x, n);
    TruncateOnce(y, n);
  }

  lemma DailyTaxesNonNegative(wage: int)
    ensures 0.0 <= DailyIncomeTax(wage) && 0.0 <= DailyLocalTax(wage)
  {
  }

  /** ...and it can yield strictly more: 100 won taxable a day over ten days. */
  lemma TruncateAfterMultiplyingDiffers()
    ensures IncomeTaxLine(150100, 10.0) == 29
    ensures TruncatedDaily(DailyIncomeTax(150100), 10) + TruncatedDaily(DailyLocalTax(150100), 10) == 20
  {
    assert DailyIncomeTax(150100) == 2.7;
    assert DailyLocalTax(150100) == 0.27;
    TruncatedDailyIsProduct(2.7, 10);
    TruncatedDailyIsProduct(0.27, 10);
  }

  lemma MulMonotone(a: real, b: real, c: real)
    requires a <= b && 0.0 <= c
    ensures a * c <= b * c
  {
    assert (b - a) * c >= 0.0;
  }

  /** A whole number below y is at most Trunc(y). */
  lemma TruncAtLeast(k: int, y: real)
    requires k as real <= y
    ensures k <= Trunc(y)
  {
  }

  // ---------------------------------------------------------------------------
  // Standard scheme: social insurances
  // ---------------------------------------------------------------------------

  /** Health + care is 3.545% of gross plus 12.95% of the truncated health amount,
      under three won below the untruncated 3.545% * 1.1295 of gross. */
  lemma {:induction false} HealthAndCareBounds(gross: real)
    requires gross >= 0.0
    ensures var exact := gross * 0.03545 * 1.1295;
      exact - 3.0 < HealthAndCare(gross) as real <= exact
  {
    var h := HealthInsurance(gross);
    var c := CareInsurance(h);
    assert h as real <= gross * 0.03545 < h as real + 1.0;
    assert c as real <= h as real * 0.1295 < c as real + 1.0;
    assert h as real * 1.1295 <= gross * 0.03545 * 1.1295;
    assert gross * 0.03545 * 1.1295 < (h as real + 1.0) * 1.1295;
  }

  /** Care is taken from the truncated health amount, which can lose a won
      against taking it from the untruncated one. */
  lemma CareFromTruncatedHealth()
    ensures HealthAndCare(220.0) == 7
    ensures Trunc(220.0 * 0.03545) + Trunc(220.0 * 0.03545 * 0.1295) == 8
  {
    assert HealthInsurance(220.0) == 7;
    assert CareInsurance(7) == 0;
  }

  // ---------------------------------------------------------------------------
  // Both schemes
  // ---------------------------------------------------------------------------

  /** For non-negative inputs every amount, hence the total, is non-negative. */
  lemma {:induction false} AmountsNonNegative(input: Input)
    requires input.dailyWage >= 0 && input.workDays >= 0.0
    ensures var r := Calculate(input);
      && r.grossPay >= 0.0
      && (forall k :: 0 <= k < |r.deductions| ==> r.deductions[k].amount >= 0.0)
      && r.totalDeduction >= 0.0
  {
    var wage, days := input.dailyWage, input.workDays;
    GrossNonNegative(wage, days);
    if input.scheme == Standard {
      StandardLinesNonNegative(wage, days, input.applyInsurance);
    }
    SumNonNegative(Calculate(input).deductions);
  }

  lemma StandardLinesNonNegative(wage: int, days: real, applyInsurance: bool)
    requires wage >= 0 && days >= 0.0
    ensures var lines := StandardLines(wage, days, applyInsurance);
      forall k :: 0 <= k < |lines| ==> lines[k].amount >= 0.0
  {
    GrossNonNegative(wage, days);
    IncomeTaxNonNegative(wage, days);
    StandardLinesListed(wage, days, applyInsurance);
  }

  lemma IncomeTaxNonNegative(wage: int, days: real)
    requires days >= 0.0
    ensures IncomeTaxLine(wage, days) >= 0
  {
    DailyTaxesNonNegative(wage);
    MulMonotone(0.0, DailyIncomeTax(wage), days);
    MulMonotone(0.0, DailyLocalTax(wage), days);
  }

  /** Under the standard scheme, for non-negative inputs, the deductions are at
      most 12.375% of gross pay (0.9% + 4.5% + 3.545% * 1.1295 + 2.97%). */
  lemma {:induction false} StandardDeductionBound(wage: int, days: real, applyInsurance: bool)
    requires wage >= 0 && days >= 0.0
    ensures Sum(StandardLines(wage, days, applyInsurance)) <= GrossPay(wage, days) * 0.12375
  {
    var gross := GrossPay(wage, days);
    GrossNonNegative(wage, days);
    StandardTotal(wage, days, applyInsurance);
    IncomeTaxWithinGross(wage, days);
    InsuranceBounds(gross);
    HealthAndCareBounds(gross);
  }

  lemma GrossNonNegative(wage: int, days: real)
    requires wage >= 0 && days >= 0.0
    ensures GrossPay(wage, days) >= 0.0
  {
    MulMonotone(0.0, wage as real, days);
  }

  /** Income tax is at most 2.97% of gross pay. */
  lemma IncomeTaxWithinGross(wage: int, days: real)
    requires wage >= 0 && days >= 0.0
    ensures IncomeTaxLine(wage, days) as real <= GrossPay(wage, days) * 0.0297
  {
    IncomeTaxBounds(wage, days);
    MulMonotone(TaxableDaily(wage) as real, wage as real, days);
  }

  /** Each insurance premium is its exact rate of gross pay less the fraction
      of a won that int() drops. */
  lemma InsuranceBounds(gross: real)
    requires gross >= 0.0
    ensures gross * EmploymentRate - 1.0 < EmploymentInsurance(gross) as real <= gross * EmploymentRate
    ensures gross * PensionRate - 1.0 < NationalPension(gross) as real <= gross * PensionRate
    ensures gross * HealthRate - 1.0 < HealthInsurance(gross) as real <= gross * HealthRate
  {
    MulMonotone(0.0, gross, EmploymentRate);
    MulMonotone(0.0, gross, PensionRate);
    MulMonotone(0.0, gross, HealthRate);
  }

  /** For non-negative inputs the deductions never exceed gross pay, so the
      unclamped net pay is never negative, in either scheme. */
  lemma {:induction false} NetPayNonNegative(input: Input)
    requires input.dailyWage >= 0 && input.workDays >= 0.0
    ensures Calculate(input).netPay >= 0.0
  {
    GrossNonNegative(input.dailyWage, input.workDays);
    if input.scheme == Standard {
      StandardDeductionBound(input.dailyWage, input.workDays, input.applyInsurance);
    }
  }

  // ---------------------------------------------------------------------------
  // Worked cases
  // ---------------------------------------------------------------------------

  /** 180,000 won a day for 20 days, standard scheme with insurance. */
  lemma StandardWithInsuranceCase()
    ensures var r := Calculate(Input(180000, 20.0, Standard, true));
      && r.grossPay == 3600000.0
      && r.deductions == [Line(EmploymentLabel, 32400.0), Line(PensionLabel, 162000.0),
                          Line(HealthLabel, 144146.0), Line(IncomeTaxLabel, 17820.0)]
      && r.totalDeduction == 356366.0
      && r.netPay == 3243634.0
  {
    assert HealthInsurance(3600000.0) == 127620;
    assert CareInsurance(127620) == 16526;
    assert DailyIncomeTax(180000) == 810.0;
    assert DailyLocalTax(180000) == 81.0;
    assert IncomeTaxLine(180000, 20.0) == 17820;
  }

  /** The same wage and days under the flat scheme. */
  lemma FlatCase()
    ensures var r := Calculate(Input(180000, 20.0, Flat33, false));
      r.totalDeduction == 118800.0 && r.netPay == 3481200.0
  {
  }

  /** 100,000 won a day for 10 days without insurance: only employment insurance is charged. */
  lemma StandardWithoutInsuranceCase()
    ensures var r := Calculate(Input(100000, 10.0, Standard, false));
      && r.deductions == [Line(EmploymentLabel, 9000.0), Line(IncomeTaxLabel, 0.0)]
      && r.totalDeduction == 9000.0
      && r.netPay == 991000.0
  {
    assert EmploymentInsurance(1000000.0) == 9000;
  }
}
