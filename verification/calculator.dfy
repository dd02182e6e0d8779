/**
 * The calculation the "Calculate Tax" button runs in app.py: total
 * deductions, both regimes, quarter-wise capital-gains tax added to both
 * regime totals, the advance-tax schedule on the new-regime total, and the
 * regime recommendation.  Input widgets and rendering are not modelled; the
 * figures they would collect are parameters.
 */
module Calculator {
  import opened TaxConfig
  import opened IncomeTax
  import opened CapitalGains
  import opened AdvanceTax

  datatype Regime = New | Old

  /** The recommended regime and the saving it is reported with. */
  datatype Recommendation = Recommendation(regime: Regime, saving: real)

  /** Everything one calculation produces. */
  datatype Report = Report(
    newRegime: TaxResult,
    oldRegime: TaxResult,
    capitalGains: CapitalGainsResult,
    schedule: seq<Installment>,
    recommendation: Recommendation)

  /** Total deductions claimed for the old regime: 80C, 80D, 80CCD and other deductions. */
  function TotalDeductions(d80c: real, d80d: real, d80ccd: real, dOthers: real): real {
    d80c + d80d + d80ccd + dOthers
  }

  /** `tax['total_tax'] += cg_total`: only the total changes. */
  function AddCapitalGains(tax: TaxResult, cgTotal: real): (r: TaxResult)
    ensures r.baseTax == tax.baseTax && r.surcharge == tax.surcharge && r.cess == tax.cess
    ensures r.taxableIncome == tax.taxableIncome
    ensures r.totalTax - cgTotal == tax.totalTax
  {
    tax.(totalTax := tax.totalTax + cgTotal)
  }

  /** The per-quarter capital-gains tax fed to the schedule: each quarter's total. */
  function CgTaxByQuarter(cg: CapitalGainsResult): (m: map<Quarter, real>)
    ensures m.Keys == cg.quarterlyTax.Keys
    ensures forall q :: q in m ==> m[q] == cg.quarterlyTax[q].total
  {
    Totals(cg.quarterlyTax)
  }

  /** The recommendation rule: New only when strictly cheaper (ties go to Old), saving |new - old|. */
  function Recommend(newTotal: real, oldTotal: real): (r: Recommendation)
    ensures r.regime == New <==> newTotal < oldTotal
    ensures r.saving >= 0.0
    ensures r.saving == if newTotal >= oldTotal then newTotal - oldTotal else oldTotal - newTotal
    ensures (if r.regime == New then newTotal else oldTotal) + r.saving
         == (if r.regime == New then oldTotal else newTotal)
  {
    var taxDiff := if newTotal - oldTotal >= 0.0 then newTotal - oldTotal else oldTotal - newTotal;
    if newTotal < oldTotal then Recommendation(New, taxDiff) else Recommendation(Old, taxDiff)
  }

  /** Capital-gains tax is added to both regimes alike, so it never changes the recommendation. */
  lemma RecommendationIgnoresCapitalGains(newTotal: real, oldTotal: real, cgTotal: real)
    ensures Recommend(newTotal + cgTotal, oldTotal + cgTotal) == Recommend(newTotal, oldTotal)
  {
  }

  /** Once the old regime is recommended, claiming more deductions keeps it recommended. */
  lemma OldStaysRecommendedWithMoreDeductions(income: real, deductions1: real, deductions2: real)
    requires deductions1 <= deductions2
    requires Recommend(CalculateTaxNewRegime(income).totalTax, CalculateTaxOldRegime(income, deductions1).totalTax).regime == Old
    ensures Recommend(CalculateTaxNewRegime(income).totalTax, CalculateTaxOldRegime(income, deductions2).totalTax).regime == Old
  {
    OldRegimeDeductionsNeverRaiseTax(income, deductions1, deductions2);
  }

  /**
   * The four claims are summed into one deduction, so raising any of them
   * never raises the old-regime total tax.
   */
  lemma MoreClaimsNeverRaiseOldRegimeTax(annualIncome: real,
                                         d80c: real, d80d: real, d80ccd: real, dOthers: real,
                                         e80c: real, e80d: real, e80ccd: real, eOthers: real)
    requires d80c <= e80c && d80d <= e80d && d80ccd <= e80ccd && dOthers <= eOthers
    ensures CalculateTaxOldRegime(annualIncome, TotalDeductions(e80c, e80d, e80ccd, eOthers)).totalTax
         <= CalculateTaxOldRegime(annualIncome, TotalDeductions(d80c, d80d, d80ccd, dOthers)).totalTax
  {
    OldRegimeDeductionsNeverRaiseTax(annualIncome, TotalDeductions(d80c, d80d, d80ccd, dOthers),
                                     TotalDeductions(e80c, e80d, e80ccd, eOthers));
  }

  /** The quarterly totals handed to the schedule add up to the total capital-gains tax. */
  lemma CgTaxByQuarterAddsUp(ltcg: map<Quarter, real>, stcg: map<Quarter, real>)
    requires ltcg.Keys == stcg.Keys
    ensures Sum(CgTaxByQuarter(CapitalGainsOf(ltcg, stcg))) == CapitalGainsOf(ltcg, stcg).totalCgTax
  {
    QuarterlyTotalsAddUp(ltcg, stcg);
  }

  /**
   * app.py lines 261-426 as one calculation.  A quarter missing from the
   * short-term map raises in the source, hence the precondition.
   */
  method Calculate(annualIncome: real, d80c: real, d80d: real, d80ccd: real, dOthers: real,
                   ltcgByQuarter: map<Quarter, real>, stcgByQuarter: map<Quarter, real>)
    returns (report: Report)
    requires ltcgByQuarter.Keys <= stcgByQuarter.Keys
    ensures report.capitalGains == CapitalGainsOf(ltcgByQuarter, stcgByQuarter)
    ensures report.newRegime == AddCapitalGains(CalculateTaxNewRegime(annualIncome), report.capitalGains.totalCgTax)
    ensures report.oldRegime
         == AddCapitalGains(CalculateTaxOldRegime(annualIncome, TotalDeductions(d80c, d80d, d80ccd, dOthers)),
                            report.capitalGains.totalCgTax)
    ensures report.schedule == Schedule(report.newRegime.totalTax, CgTaxByQuarter(report.capitalGains))
    ensures report.newRegime.totalTax
         == CalculateTaxNewRegime(annualIncome).totalTax + report.capitalGains.totalCgTax
    ensures report.oldRegime.totalTax
         == CalculateTaxOldRegime(annualIncome, d80c + d80d + d80ccd + dOthers).totalTax + report.capitalGains.totalCgTax
    ensures report.newRegime.taxableIncome == annualIncome - StandardDeduction
    ensures report.oldRegime.taxableIncome == annualIncome - (d80c + d80d + d80ccd + dOthers)
    ensures |report.schedule| == 4
    ensures SumTotal(report.schedule) == report.newRegime.totalTax
    ensures ltcgByQuarter.Keys == stcgByQuarter.Keys ==>
      SumRegular(report.schedule) == CalculateTaxNewRegime(annualIncome).totalTax
    ensures (report.recommendation.regime == New) <==>
      (CalculateTaxNewRegime(annualIncome).totalTax
       < CalculateTaxOldRegime(annualIncome, d80c + d80d + d80ccd + dOthers).totalTax)
    ensures report.recommendation.saving
         == if report.newRegime.totalTax >= report.oldRegime.totalTax
            then report.newRegime.totalTax - report.oldRegime.totalTax
            else report.oldRegime.totalTax - report.newRegime.totalTax
  {
    var totalDeductions := TotalDeductions(d80c, d80d, d80ccd, dOthers);

    var newRegimeTax := CalculateTaxNewRegime(annualIncome);
    var oldRegimeTax := CalculateTaxOldRegime(annualIncome, totalDeductions);

    var cgTax := CalculateCapitalGainsTax(ltcgByQuarter, stcgByQuarter);

    newRegimeTax := AddCapitalGains(newRegimeTax, cgTax.totalCgTax);
    oldRegimeTax := AddCapitalGains(oldRegimeTax, cgTax.totalCgTax);

    var cgTaxByQuarter := CgTaxByQuarter(cgTax);
    var schedule := AdvanceTaxSchedule(newRegimeTax.totalTax, cgTaxByQuarter);

    var recommendation := Recommend(newRegimeTax.totalTax, oldRegimeTax.totalTax);

    TotalsAddUp(newRegimeTax.totalTax, cgTaxByQuarter);
    RegularPartsAddUp(newRegimeTax.totalTax, cgTaxByQuarter);
    if ltcgByQuarter.Keys == stcgByQuarter.Keys {
      CgTaxByQuarterAddsUp(ltcgByQuarter, stcgByQuarter);
    }
    report := Report(newRegimeTax, oldRegimeTax, cgTax, schedule, recommendation);
  }
}
