# Take-home pay of a daily-wage construction worker

A Dafny model of the calculation core of a Streamlit page that estimates the
take-home pay of a daily-wage construction worker in Korea. From a daily wage
(whole won), a number of work days (possibly fractional), a deduction scheme
and an "eight or more days worked" insurance flag, the page computes gross
pay, an ordered label-to-amount list of deductions, the total deduction and
the net pay, then shows two headline figures and an itemised breakdown.

- `calculator.dfy`, module `Deductions`: the calculation run when the button
  is pressed. Under the flat 3.3% scheme there is one untruncated line. Under
  the standard scheme there are employment insurance (0.9%), national pension
  (4.5%) and health insurance (3.545%) plus long-term care (12.95% of the
  truncated health amount) when insurance applies, and income tax (6% with the
  55% reduction, so 2.7%) plus local tax (10% of it) on the part of the daily
  wage above 150,000 won. Every standard subtotal is truncated before the sum.
  Rates are exact decimals (`real`), and Python's `int()` is `Trunc`, which
  drops the fraction toward zero for either sign.
- `display.dfy`, module `Display`: the headline figures (`int()` of net pay
  and of total deduction) and the itemised breakdown. The breakdown appears
  only when the total is positive. It lists the lines of positive amount, in
  insertion order, each as whole won. It is written as the source's loop
  (`ItemisedBreakdown`) proved against the filter `Visible`.

The dictionary of deductions is a `seq<Line>`. Its order is the insertion
order of the source's dictionary, and `LabelsDistinct` shows that no key
repeats. The dictionary keys are the source's own Korean labels.

Worked case, 180,000 won for 20 days, standard scheme with insurance: care
insurance is ⌊127,620 × 0.1295⌋ = 16,526, the total deduction is 356,366 and
the net pay 3,243,634 (`StandardWithInsuranceCase`).

## Model

| member | source | states |
|---|---|---|
| `Deductions.Trunc` | streamlit_app.py:126-143 | `int()` drops the fraction toward zero: for x ≥ 0 the result t is the whole number with t ≤ x < t + 1; for x < 0 it is the one with x ≤ t < x + 1 |
| `Deductions.TaxableDaily` | streamlit_app.py:122 | the taxable daily base is never negative, is at least wage − 150,000, and is either 0 or exactly wage − 150,000 |
| `Deductions.Calculate` | streamlit_app.py:105-156 | gross pay is daily wage × work days; the total deduction is the sum of the line amounts; net pay is gross − total, not clamped |
| `Deductions.GrossPay` | streamlit_app.py:106 | gross pay is daily wage × work days, its meaning stated by `Calculate`'s first ensures and bounded by `GrossNonNegative` |
| `Deductions.DailyIncomeTax` | streamlit_app.py:122-123 | 2.7% of the taxable daily base; `DailyTaxesNonNegative` shows it is never negative, and `IncomeTaxBounds` ties it to the exact 2.97% |
| `Deductions.DailyLocalTax` | streamlit_app.py:124 | 10% of the daily income tax; `DailyTaxesNonNegative` and `IncomeTaxBounds` state its meaning |
| `Deductions.IncomeTaxLine` | streamlit_app.py:126-127 | income tax and local tax, each truncated once over all days, then added; `IncomeTaxBounds`, `IncomeTaxZeroIff`, `IncomeTaxFreeUpToThreshold` and `IncomeTaxNonNegative` state its meaning |
| `Deductions.EmploymentInsurance` | streamlit_app.py:131 | ⌊gross × 0.009⌋; `InsuranceBounds` puts it less than one won below the exact product and `EmploymentInsuranceFirst` places it first |
| `Deductions.NationalPension` | streamlit_app.py:139 | ⌊gross × 0.045⌋; `InsuranceBounds` puts it less than one won below the exact product and `PensionLine` places it second under insurance |
| `Deductions.HealthInsurance` | streamlit_app.py:141 | ⌊gross × 0.03545⌋; `InsuranceBounds` puts it less than one won below the exact product |
| `Deductions.CareInsurance` | streamlit_app.py:143 | ⌊health × 0.1295⌋ of the truncated health amount; `CareFromTruncatedHealth` shows the won this can lose |
| `Deductions.HealthAndCare` | streamlit_app.py:141-149 | health plus care as one line; `HealthAndCareBounds` puts it within three won below gross × 3.545% × 1.1295 |
| `Deductions.Sum` | streamlit_app.py:153 | `sum(deductions.values())`; `SumAppend`, `SumNonNegative` and `StandardTotal` state its meaning |
| `Deductions.StandardLines` | streamlit_app.py:146-151 | the standard dictionary in insertion order; `StandardShape`, `StandardLinesListed` and `StandardLinesNonNegative` state its labels, amounts and signs |
| `Deductions.GrossNonNegative` | streamlit_app.py:106 | gross pay is never negative for non-negative wage and days |
| `Deductions.DailyTaxesNonNegative` | streamlit_app.py:122-124 | the daily income tax and daily local tax are never negative, whatever the wage, because of the max(0, …) guard |
| `Deductions.InsuranceBounds` | streamlit_app.py:131-141 | for non-negative gross pay, employment insurance, pension and health insurance each lie less than one won below gross × 0.9%, 4.5% and 3.545%, and never above |
| `Deductions.StandardLinesListed` | streamlit_app.py:146-151 | the standard dictionary is exactly employment, then pension and health + care when insurance applies, then income tax, with their amounts |
| `Deductions.StandardTotal` | streamlit_app.py:146-153 | truncate-then-sum: the standard total is the sum of the truncated subtotals, with pension and health + care only when insurance applies |
| `Deductions.FlatScheme` | streamlit_app.py:111-115 | the flat scheme has exactly one line, gross × 3.3% untruncated; the total equals it and net pay is 96.7% of gross |
| `Deductions.FlatTotalMayBeFractional` | streamlit_app.py:113-115 | the flat total can carry a fraction of a won (0.33 for 10 won) |
| `Deductions.FlatIgnoresInsuranceFlag` | streamlit_app.py:111-115 | the insurance flag has no effect on the flat scheme's result |
| `Deductions.StandardShape` | streamlit_app.py:146-151 | the standard labels are exactly [employment, income tax] without insurance and [employment, pension, health + care, income tax] with it; zero lines are kept |
| `Deductions.EmploymentInsuranceFirst` | streamlit_app.py:131-146 | the first standard line is employment insurance, ⌊gross × 0.009⌋ |
| `Deductions.PensionLine` | streamlit_app.py:137-148 | with insurance, the second line is national pension, ⌊gross × 0.045⌋ |
| `Deductions.HealthAndCareLine` | streamlit_app.py:141-149 | with insurance, the third line is h + ⌊h × 0.1295⌋ with h = ⌊gross × 0.03545⌋: care is taken from the truncated health amount |
| `Deductions.IncomeTaxLast` | streamlit_app.py:151 | the last standard line is income tax with local tax, present even when zero |
| `Deductions.LabelsDistinct` | streamlit_app.py:107-151 | no label occurs twice in the breakdown of either scheme, as in a dictionary |
| `Deductions.StandardTotalIsWhole` | streamlit_app.py:126-153 | the standard total is a whole number of won |
| `Deductions.IncomeTaxFreeUpToThreshold` | streamlit_app.py:122-127 | a daily wage of at most 150,000 won gives an income-tax line of 0 for any number of days |
| `Deductions.IncomeTaxZeroIff` | streamlit_app.py:122-127 | for non-negative days the income-tax line is 0 exactly when the untruncated income tax over all days is below one won |
| `Deductions.IncomeTaxBounds` | streamlit_app.py:122-127 | the income-tax line lies within two won below the exact 2.97% of taxable base × days |
| `Deductions.TruncateOnce` | streamlit_app.py:126-127 | for a non-negative daily amount, truncating it day by day over n whole days never yields more than truncating the n-day product once |
| `Deductions.TruncatedDailyIsProduct` | streamlit_app.py:126-127 | day-by-day truncation over n days is n × the truncated daily amount |
| `Deductions.TruncateAfterMultiplying` | streamlit_app.py:123-127 | the income tax and local tax, each truncated once over the whole period as the code does, are never less than the same taxes truncated day by day |
| `Deductions.TruncateAfterMultiplyingDiffers` | streamlit_app.py:123-127 | and can be more: 150,100 won for 10 days gives 29 won of income tax, against 20 won truncated day by day |
| `Deductions.HealthAndCareBounds` | streamlit_app.py:141-143 | health + care lies less than three won below the exact gross × 3.545% × 1.1295, and never above it |
| `Deductions.CareFromTruncatedHealth` | streamlit_app.py:141-143 | taking care from the truncated health amount can lose a won: 7 for a gross of 220 won, against 8 from the untruncated one |
| `Deductions.IncomeTaxNonNegative` | streamlit_app.py:122-127 | for non-negative days the income-tax line is never negative, thanks to the max(0, …) guard |
| `Deductions.StandardLinesNonNegative` | streamlit_app.py:122-151 | for non-negative inputs every standard line amount is non-negative |
| `Deductions.AmountsNonNegative` | streamlit_app.py:106-153 | for non-negative inputs gross pay, every line amount and the total deduction are non-negative, in both schemes |
| `Deductions.IncomeTaxWithinGross` | streamlit_app.py:122-127 | for non-negative inputs income tax with local tax is at most 2.97% of gross pay |
| `Deductions.StandardDeductionBound` | streamlit_app.py:122-153 | for non-negative inputs the standard deductions are at most 12.375% of gross pay |
| `Deductions.NetPayNonNegative` | streamlit_app.py:156 | for non-negative inputs net pay is never negative in either scheme, although it is not clamped |
| `Deductions.StandardWithInsuranceCase` | streamlit_app.py:105-156 | 180,000 won × 20 days, standard with insurance: lines 32,400 / 162,000 / 144,146 / 17,820, total 356,366, net 3,243,634 |
| `Deductions.FlatCase` | streamlit_app.py:106-115 | the same under the flat scheme: total 118,800, net 3,481,200 |
| `Deductions.StandardWithoutInsuranceCase` | streamlit_app.py:117-156 | 100,000 won × 10 days without insurance: lines 9,000 and 0, total 9,000, net 991,000 |
| `Deductions.SumAppend` | streamlit_app.py:153 | the sum of a concatenation of breakdowns is the sum of their sums |
| `Deductions.SumNonNegative` | streamlit_app.py:153 | the sum of non-negative amounts is non-negative |
| `Display.Headline` | streamlit_app.py:164-165 | the headline figures are net pay and total deduction truncated toward zero |
| `Display.Visible` | streamlit_app.py:174-176 | the filtered breakdown is never longer than the breakdown |
| `Display.ItemisedBreakdown` | streamlit_app.py:172-176 | no breakdown unless the total is positive; otherwise exactly the filtered lines, in order |
| `Display.VisibleAppend` | streamlit_app.py:174-176 | filtering distributes over concatenation, so insertion order is kept |
| `Display.VisibleSound` | streamlit_app.py:174-176 | every shown entry is a line of positive amount, with its label and its truncated amount |
| `Display.VisibleComplete` | streamlit_app.py:174-176 | every line of positive amount is shown, with its truncated amount |
| `Display.ZeroLinesHidden` | streamlit_app.py:175 | lines whose amount is not positive are never shown |
| `Display.NoInsuranceLinesShown` | streamlit_app.py:147-176 | without insurance, neither pension nor health + care appears in the shown breakdown |
| `Display.StandardWithoutInsuranceShown` | streamlit_app.py:164-176 | 100,000 won × 10 days without insurance shows only employment insurance 9,000; headline 991,000 and 9,000 |
| `Display.FlatFractionShownTruncated` | streamlit_app.py:113-176 | a flat deduction of 0.33 won is positive, so it is listed, as 0 won; headline 9 and 0 |

## Left out

- The Streamlit page: page configuration, style sheet, title, columns, input
  widgets, radio button, checkbox, button event, HTML rendering, the expander
  and the closing note (streamlit_app.py:1-100, 161-178). The inputs become
  the fields of `Input`; the displayed values are what `Display` returns.
- Thousands separators and the minus sign in front of the shown total: text
  formatting of the numbers `Headline` and `Visible` produce.
- The unused `pandas` import.
- Binary floating point. The source multiplies Python floats by decimal
  rates, so a product can fall a hair below a whole number and `int()` then
  drops one won. The model computes with exact rationals, which is the
  intended decimal arithmetic.
- Forcing the insurance flag off when the flat scheme is chosen
  (streamlit_app.py:99-100): the flat branch never reads the flag
  (`FlatIgnoresInsuranceFlag`).
- Input validation: the widgets set no minimum, and the model, like the code,
  defines a result for negative wages and days, with `int()` truncating toward
  zero. The properties that need non-negative inputs say so in their
  `requires`.
- Deductions.TruncateAfterMultiplying: compares the two truncation orders for
  a whole number of days only; the per-day policy ⌊x⌋ × d over a fractional
  number of days d is not compared.
