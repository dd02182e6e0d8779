# Indian income-tax calculator (FY 2024-25): the tax engine in Dafny

This project models the computation engine of a Streamlit calculator for Indian personal income tax for fiscal year 2024-25. It covers:

- **Regular income tax under both regimes.** Taxable income is income minus a fixed standard deduction of 75000 (new regime) or minus the claimed deductions (old regime). It is not clamped at zero. A progressive slab schedule gives the base tax. One surcharge band, picked highest threshold first with a strict `>`, is then applied to the whole base tax. A 4% cess is charged on base tax plus surcharge.
- **Quarter-wise capital-gains tax.** Long-term gains (LTCG) get one annual exemption of 125000 and are taxed at 12.5%. That tax is allocated back to the quarters in proportion to each quarter's share of total LTCG. Short-term gains (STCG) are taxed at a flat 20%, quarter by quarter.
- **The advance-tax schedule.** Regular tax (total tax minus all quarterly capital-gains tax) is paid in four instalments that bring the running total up to 15/45/75/100 percent. Each instalment also carries its own quarter's capital-gains tax in full.
- **The glue of the calculate button.** This is the deduction sum, adding capital-gains tax to both regime totals, the per-quarter map handed to the schedule, and the recommendation rule.
- **The helpers in `utils.py`.** These are the tax-saving tips and the simple cumulative schedule.
- **The configuration tables in `tax_config.py`.** These come with a generic table-driven slab evaluator and a generic surcharge evaluator. The hard-coded branches in `app.py` are proved equal to them.

Money is modelled as exact `real`, with exact decimal rates. Quarters are a four-constructor datatype, per-quarter figures are `map<Quarter, real>`, and due dates are opaque strings.

Modules, one per component:

- `TaxConfig` (tax_config.dfy): the configuration tables, their well-formedness, and the generic evaluators with their monotonicity proofs.
- `IncomeTax` (income_tax.dfy): `calculate_tax_new_regime` and `calculate_tax_old_regime`.
- `CapitalGains` (capital_gains.dfy): `calculate_capital_gains_tax`. Its loop fills the quarterly map.
- `AdvanceTax` (advance_tax.dfy): the `calculate_advance_tax_schedule` of `app.py`. Its loop keeps a running total. This definition shadows the `utils.py` function of the same name, because `app.py` imports `utils` with `*` and then redefines the function.
- `Utils` (utils.dfy): `get_tax_saving_tips` (conditional appends) and the one-argument schedule of `utils.py`.
- `Calculator` (calculator.dfy): the calculation behind the calculate button.

The two loops of the source are methods with loop invariants. Each is proved equal to a reference function, and the properties are proved about that function. The first method is `CapitalGains.CalculateCapitalGainsTax` against `CapitalGainsOf`. The second is `AdvanceTax.AdvanceTaxSchedule` against `Schedule`, a closed form with one slice of the percentages per instalment. The tip builder is a method proved equal to `SavingTips`, a function that takes no income argument. The regime calculators are functions. Their contracts tie the if/elif branches to the configuration tables through the generic evaluators.

On these three points the model follows the code:

- Negative taxable income is not clamped. It falls into the zero band of either schedule.
- Quarterly shares are exact. No rounding or reconciliation rule exists in the code.
- A quarter missing from the map given to the schedule counts as 0 (`.get(q, 0)`). It is not treated as an error.

## Model

| member | source | states |
|---|---|---|
| `TaxConfig.NewRegimeSlabsWellFormed` | tax_config.py:11-18 | New-regime slab limits strictly increase, the last is unbounded, rates never decrease and lie in [0,1), and the first limit is positive |
| `TaxConfig.OldRegimeSlabsWellFormed` | tax_config.py:21-26 | The same well-formedness for the old-regime slabs |
| `TaxConfig.SurchargeTablesWellFormed` | tax_config.py:29-40 | Both surcharge lists have strictly decreasing thresholds, non-increasing rates, and rates in [0,1) |
| `TaxConfig.AdvanceTaxDatesWellFormed` | tax_config.py:56-62 | The four advance-tax percentages are positive, strictly increase, and end at 100 |
| `TaxConfig.SlabTaxMonotone` | tax_config.py:11-26 | The generic slab evaluator, from any slab on, never taxes a larger income less when rates are non-negative and limits increase |
| `TaxConfig.EvaluateSlabsMonotone` | tax_config.py:11-26 | Over any well-formed schedule the table-driven base tax is non-negative and non-decreasing in taxable income |
| `TaxConfig.SurchargeRateMonotone` | tax_config.py:29-40 | Over a well-formed surcharge table the first-match rate is non-negative and non-decreasing in taxable income |
| `TaxConfig.SurchargeRateZeroBelow` | tax_config.py:29-40 | Taxable income at or below every threshold pays no surcharge |
| `IncomeTax.NewRegimeBaseTaxMatchesTable` | app.py:141-152 | The hard-coded new-regime slab branches equal the generic evaluator over NEW_REGIME_SLABS for every taxable income, negative included |
| `IncomeTax.NewRegimeSurchargeMatchesTable` | app.py:154-160 | The new-regime surcharge chain equals first-match (strict `>`) evaluation of its surcharge list, times the whole base tax |
| `IncomeTax.CalculateTaxNewRegime` | app.py:136-170 | Taxable income is income minus STANDARD_DEDUCTION. Base tax is the table-driven slab tax. Surcharge is the first-match rate times the base. Cess is (base + surcharge) times CESS_RATE, total is base + surcharge + cess, and every component is non-negative |
| `IncomeTax.NewRegimeZeroBand` | app.py:137-142 | Taxable income at most 300000, negative included, gives base tax 0 and total 0 |
| `IncomeTax.NewRegimeBreakpoints` | app.py:141-152 | Cumulative base tax at 3L/6L/9L/12L/15L is 0/15000/45000/90000/150000 |
| `IncomeTax.NewRegimeBaseTaxContinuous` | app.py:141-152 | Between two taxable incomes the base tax grows by between 0 and 30% of the difference, so it is continuous and non-decreasing |
| `IncomeTax.NewRegimeTotalMonotone` | app.py:136-170 | Total new-regime tax never decreases as income grows, across the surcharge bands too |
| `IncomeTax.NewRegimeGolden` | app.py:136-170 | Income 1000000 gives taxable 925000, base 48750, surcharge 0, cess 1950 and total 50700 |
| `IncomeTax.OldRegimeBaseTaxMatchesTable` | app.py:176-183 | The hard-coded old-regime slab branches equal the generic evaluator over OLD_REGIME_SLABS for every taxable income |
| `IncomeTax.OldRegimeSurchargeMatchesTable` | app.py:185-191 | The old-regime surcharge chain equals first-match evaluation of its surcharge list, times the whole base tax |
| `IncomeTax.CalculateTaxOldRegime` | app.py:172-201 | Taxable income is income minus deductions. Base tax is the table-driven slab tax, surcharge is the first-match rate times the base, cess and total satisfy the cess identity, and every component is non-negative |
| `IncomeTax.OldRegimeZeroBand` | app.py:173-177 | Taxable income at most 250000, negative included, gives base tax 0 and total 0 |
| `IncomeTax.OldRegimeBreakpoints` | app.py:176-183 | Cumulative base tax at 2.5L/5L/10L is 0/12500/112500 |
| `IncomeTax.OldRegimeBaseTaxContinuous` | app.py:176-183 | Old-regime base tax grows by between 0 and 30% of any increase in taxable income |
| `IncomeTax.OldRegimeTotalMonotone` | app.py:172-201 | Total old-regime tax never decreases as taxable income grows |
| `IncomeTax.OldRegimeDeductionsNeverRaiseTax` | app.py:173 | For a fixed income, more deductions never raise old-regime total tax |
| `IncomeTax.NoSurchargeUpToOneCrore` | app.py:154-191 | Neither regime charges a surcharge on taxable income of at most 1 crore |
| `CapitalGains.TaxableLtcg` | app.py:64-65 | Taxable LTCG is the total minus 125000 when that is positive, else 0, and is never negative |
| `CapitalGains.CapitalGainsOf` | app.py:58-97 | The quarterly map has exactly the LTCG map's quarters, taxable LTCG is at least max(0, total − exemption), and total CG tax is LTCG tax + STCG tax |
| `CapitalGains.CapitalGainsRates` | app.py:64-88 | LTCG tax is 12.5% of taxable LTCG = max(0, total − 125000); STCG tax is a flat 20% of the STCG total; each visited quarter's STCG tax is 20% of its own STCG, and its total is its LTCG tax plus its STCG tax |
| `CapitalGains.CalculateCapitalGainsTax` | app.py:58-97 | The loop over the LTCG quarters returns exactly the reference result `CapitalGainsOf` |
| `CapitalGains.ExemptionCoversSmallTotals` | app.py:64-82 | Total LTCG at most 125000 means taxable LTCG 0, LTCG tax 0, and LTCG tax 0 in every quarter, however large one quarter is |
| `CapitalGains.LtcgTaxOnExcess` | app.py:64-66 | Above the exemption, LTCG tax is 12.5% of total LTCG minus 125000 |
| `CapitalGains.ExemptionBoundary` | app.py:64-66 | Total LTCG 125000 owes 0 and 125001 owes 0.125 |
| `CapitalGains.ProportionalSharesAddUp` | app.py:79 | Four amounts, each scaled by tax over their sum, add up to the tax |
| `CapitalGains.QuarterlyLtcgAddsUp` | app.py:72-89 | Quarterly LTCG taxes add up to the annual LTCG tax for every input. The division happens only when the total exceeds the exemption, so never by zero |
| `CapitalGains.QuarterlyStcgAddsUp` | app.py:69-83 | When both maps cover the same quarters, quarterly STCG taxes (20% each) add up to the annual STCG tax |
| `CapitalGains.QuarterlyTotalsAddUp` | app.py:85-94 | When both maps cover the same quarters, the quarterly totals add up to total_cg_tax |
| `CapitalGains.CapitalGainsNonNegative` | app.py:72-89 | Non-negative gains give non-negative taxes, and no quarter owes more LTCG tax than the whole year |
| `CapitalGains.ProportionalExample` | app.py:78-79 | {Q1: 100000, Q2: 100000, Q3: 0, Q4: 0} gives taxable 75000, LTCG tax 9375, 4687.5 for each of Q1 and Q2, and 0 for Q3 and Q4 |
| `AdvanceTax.AdvanceTaxSchedule` | app.py:99-133 | The running-increment loop returns exactly `Schedule`, the closed-form reference definition: four instalments, each carrying its slice of the cumulative percentages of the regular tax plus its own quarter's capital-gains tax |
| `AdvanceTax.ScheduleShape` | app.py:101-129 | Instalment percentages are 15/30/30/25, regular parts are 15/30/30/25% of regular tax, entry i carries quarter Qi's capital-gains tax, a missing quarter counting as 0, and each entry's total amount is its regular part plus its capital-gains part |
| `AdvanceTax.ScheduleFollowsCalendar` | app.py:101-106 | The schedule's cumulative percentages are those of TAX_DATES["advance_tax"] |
| `AdvanceTax.CumulativeRegular` | app.py:109-121 | The regular parts of the first k instalments add up to regular tax times the k-th cumulative percentage |
| `AdvanceTax.RegularPartsAddUp` | app.py:108-121 | The four regular parts add up to total tax minus the sum of the quarterly capital-gains tax |
| `AdvanceTax.InstallmentPercentagesAddUp` | app.py:126 | The installment_percentage fields add up to 100 |
| `AdvanceTax.CapitalGainsPartsAddUp` | app.py:118 | The capital-gains parts add up to the sum of the per-quarter map, so each quarter is carried once and in full |
| `AdvanceTax.TotalsAddUp` | app.py:120 | The instalment totals add up to the total tax passed in |
| `Utils.TipIfBelow` | utils.py:65-75 | A section yields a tip exactly when its claim is below its cap, and the tip offers cap minus claim, which is positive |
| `Utils.GetTaxSavingTips` | utils.py:57-77 | The conditional appends build exactly `SavingTips(age, deductions)`, which does not depend on income |
| `Utils.TipsOrdered` | utils.py:59-77 | There are at most three tips, always in the order 80C, 80D, NPS |
| `Utils.TipPresentIffBelowCap` | utils.py:61-75 | A tip for 80C, 80D or NPS is present iff the claim (missing key counts as 0) is below that section's cap. Its remaining amount is cap minus claim, which is positive |
| `Utils.EmptyDeductionsYieldAllTips` | utils.py:65-75 | An empty deductions map yields all three tips at full caps: 150000, the age-dependent 80D cap, and 50000 |
| `Utils.Cap80DByAge` | utils.py:62 | The configured 80D cap is 50000 from age 60 and 25000 below it, matching the literals in utils.py |
| `Utils.SimpleScheduleFollowsCalendar` | utils.py:79-87 | Four amounts equal to the calendar's cumulative percentages of total tax, the last being the total |
| `Utils.SimpleScheduleNonDecreasing` | utils.py:81-86 | For total tax ≥ 0 the cumulative amounts are non-negative, never decrease, and never exceed the total |
| `Utils.SimpleScheduleDifferencesMatchApp` | utils.py:81-86 | With no capital-gains tax, consecutive differences of the simple schedule equal the regular parts of the app.py schedule |
| `Calculator.MoreClaimsNeverRaiseOldRegimeTax` | app.py:261 | Raising any of the four claims (80C, 80D, 80CCD, other) that are summed into the total deductions never raises the old-regime total tax |
| `Calculator.AddCapitalGains` | app.py:312-313 | Adding capital-gains tax raises only total_tax, by exactly that amount |
| `Calculator.CgTaxByQuarterAddsUp` | app.py:398-399 | When both gain maps cover the same quarters, the map handed to the schedule (`CgTaxByQuarter`, each quarter's total) adds up to total_cg_tax |
| `Calculator.Recommend` | app.py:422-426 | New is recommended iff new total < old total (ties go to Old). The saving is \|new − old\| ≥ 0, and the recommended total plus the saving is the other total |
| `Calculator.RecommendationIgnoresCapitalGains` | app.py:312-313 | Adding the same capital-gains tax to both totals never changes the recommendation |
| `Calculator.OldStaysRecommendedWithMoreDeductions` | app.py:422-426 | Once Old is recommended, claiming more deductions keeps Old recommended, so the recommendation flips at most once as deductions grow |
| `Calculator.Calculate` | app.py:303-426 | Each regime result is that regime's calculation (base, surcharge, cess, taxable income) with the capital-gains tax added to its total only. The schedule is exactly `Schedule` on the new-regime total and the quarterly capital-gains totals. Both regime totals include the capital-gains tax, and the schedule's totals add up to the new-regime total. When both gain maps cover the same quarters, the schedule's regular parts add up to the new regime's pre-capital-gains total. The recommendation compares the two pre-capital-gains totals strictly, which is equivalent to the source's comparison of the post-capital-gains totals since the same amount is added to both, and the saving is \|new − old\| |

## Left out

- The Streamlit user interface is not modelled: page setup, CSS, sidebar, tabs, number inputs (with their clamping), expanders, tables, the quiz, the FAQ and the help form. It is presentation and I/O. The figures it would collect are parameters of `Calculator.Calculate`.
- The Plotly chart builders `create_tax_comparison_chart`, `create_tax_breakdown_pie` and `create_monthly_savings_chart` are not modelled. They only wrap a foreign plotting library.
- `create_educational_content` is not modelled: it is static text.
- IEEE-754 floating-point rounding is not modelled. Money is exact `real`, so sums that hold "within tolerance" in the source are exact equalities here.
- Formatted strings are not modelled: tip sentences, `f"{x:,.2f}"` output and due-date labels. A tip is a (section, remaining amount) value, and due dates are opaque strings. The date labels in `TAX_DATES` ("15 Jun 2024") differ in wording from those in `app.py` ("June 15, 2024"). Only the percentages are related.
- `CapitalGains.CalculateCapitalGainsTax` iterates over the long-term map's quarters as a set, not in dictionary insertion order. The result is a map, so order has no effect on any value. The precondition that every long-term quarter is also a short-term key stands for the `KeyError` the source raises otherwise.
- Unused inputs are not modelled: the calculator's `age`, `assessment_year`, and the `income` argument of `get_tax_saving_tips`. That last argument is accepted and ignored. Also left out are the pandas table built from the schedule (app.py:402-412), and `CURRENT_FY`, `ASSESSMENT_YEAR` and the filing and audit deadlines in `tax_config.py`, which no computation uses.
