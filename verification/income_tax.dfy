/**
 * Income tax under the new and the old regime (app.py,
 * calculate_tax_new_regime and calculate_tax_old_regime): taxable income,
 * a progressive base tax written as an if/elif chain, one surcharge band
 * applied to the whole base tax, and a 4% cess on base tax plus surcharge.
 * Taxable income is not clamped: a negative value falls in the zero band.
 */
module IncomeTax {
  import opened TaxConfig

  /** The dictionary both regime calculators return. */
  datatype TaxResult = TaxResult(
    baseTax: real,
    surcharge: real,
    cess: real,
    totalTax: real,
    taxableIncome: real)

  /** Cess identity, total identity and non-negative components. */
  ghost predicate Consistent(r: TaxResult) {
    && r.cess == (r.baseTax + r.surcharge) * CessRate
    && r.totalTax == r.baseTax + r.surcharge + r.cess
    && r.baseTax >= 0.0
    && r.surcharge >= 0.0
    && r.cess >= 0.0
    && r.totalTax >= 0.0
  }

  // ---------------------------------------------------------------------
  // New regime
  // ---------------------------------------------------------------------

  function NewRegimeBaseTax(taxable: real): real {
    if taxable <= 300000.0 then 0.0
    else if taxable <= 600000.0 then (taxable - 300000.0) * 0.05
    else if taxable <= 900000.0 then 15000.0 + (taxable - 600000.0) * 0.10
    else if taxable <= 1200000.0 then 45000.0 + (taxable - 900000.0) * 0.15
    else if taxable <= 1500000.0 then 90000.0 + (taxable - 1200000.0) * 0.20
    else 150000.0 + (taxable - 1500000.0) * 0.30
  }

  function NewRegimeSurchargeOn(taxable: real, tax: real): real {
    if taxable > 50000000.0 then tax * 0.25
    else if taxable > 20000000.0 then tax * 0.15
    else if taxable > 10000000.0 then tax * 0.10
    else 0.0
  }

  /** The hard-coded new-regime branches compute the table-driven slab tax of NEW_REGIME_SLABS. */
  lemma NewRegimeBaseTaxMatchesTable(taxable: real)
    ensures NewRegimeBaseTax(taxable) == EvaluateSlabs(NewRegimeSlabs, taxable)
  {
    var s := NewRegimeSlabs;
    var t := taxable;
    if t > 1500000.0 {
      assert SlabTaxFrom(s, 5, 1500000.0, t) == (t - 1500000.0) * 0.30;
      assert SlabTaxFrom(s, 4, 1200000.0, t) == 60000.0 + (t - 1500000.0) * 0.30;
      assert SlabTaxFrom(s, 3, 900000.0, t) == 105000.0 + (t - 1500000.0) * 0.30;
      assert SlabTaxFrom(s, 2, 600000.0, t) == 135000.0 + (t - 1500000.0) * 0.30;
      assert SlabTaxFrom(s, 1, 300000.0, t) == 150000.0 + (t - 1500000.0) * 0.30;
    } else if t > 1200000.0 {
      assert SlabTaxFrom(s, 4, 1200000.0, t) == (t - 1200000.0) * 0.20;
      assert SlabTaxFrom(s, 3, 900000.0, t) == 45000.0 + (t - 1200000.0) * 0.20;
      assert SlabTaxFrom(s, 2, 600000.0, t) == 75000.0 + (t - 1200000.0) * 0.20;
      assert SlabTaxFrom(s, 1, 300000.0, t) == 90000.0 + (t - 1200000.0) * 0.20;
    } else if t > 900000.0 {
      assert SlabTaxFrom(s, 3, 900000.0, t) == (t - 900000.0) * 0.15;
      assert SlabTaxFrom(s, 2, 600000.0, t) == 30000.0 + (t - 900000.0) * 0.15;
      assert SlabTaxFrom(s, 1, 300000.0, t) == 45000.0 + (t - 900000.0) * 0.15;
    } else if t > 600000.0 {
      assert SlabTaxFrom(s, 2, 600000.0, t) == (t - 600000.0) * 0.10;
      assert SlabTaxFrom(s, 1, 300000.0, t) == 15000.0 + (t - 600000.0) * 0.10;
    } else if t > 300000.0 {
      assert SlabTaxFrom(s, 1, 300000.0, t) == (t - 300000.0) * 0.05;
    }
  }

  /** The new-regime surcharge chain is first-match evaluation of its surcharge table. */
  lemma NewRegimeSurchargeMatchesTable(taxable: real, tax: real)
    ensures NewRegimeSurchargeOn(taxable, tax) == SurchargeRate(NewRegimeSurcharge, taxable) * tax
  {
  }

  function CalculateTaxNewRegime(annualIncome: real): (r: TaxResult)
    ensures r.taxableIncome == annualIncome - StandardDeduction
    ensures r.baseTax == EvaluateSlabs(NewRegimeSlabs, r.taxableIncome)
    ensures r.surcharge == SurchargeRate(NewRegimeSurcharge, r.taxableIncome) * r.baseTax
    ensures Consistent(r)
  {
    var standardDeduction := 75000.0;
    var taxableIncome := annualIncome - standardDeduction;
    var tax := NewRegimeBaseTax(taxableIncome);
    var surcharge := NewRegimeSurchargeOn(taxableIncome, tax);
    var cess := (tax + surcharge) * 0.04;
    NewRegimeBaseTaxMatchesTable(taxableIncome);
    NewRegimeSurchargeMatchesTable(taxableIncome, tax);
    NewRegimeSlabsWellFormed();
    EvaluateSlabsMonotone(NewRegimeSlabs, taxableIncome, taxableIncome);
    TaxResult(tax, surcharge, cess, tax + surcharge + cess, taxableIncome)
  }

  /** Base tax is 0 whenever taxable income is at most 3L, negative taxable income included. */
  lemma NewRegimeZeroBand(annualIncome: real)
    requires annualIncome - 75000.0 <= 300000.0
    ensures CalculateTaxNewRegime(annualIncome).baseTax == 0.0
    ensures CalculateTaxNewRegime(annualIncome).totalTax == 0.0
  {
  }

  /** The cumulative base tax at each slab limit of the new regime. */
  lemma NewRegimeBreakpoints()
    ensures NewRegimeBaseTax(300000.0) == 0.0
    ensures NewRegimeBaseTax(600000.0) == 15000.0
    ensures NewRegimeBaseTax(900000.0) == 45000.0
    ensures NewRegimeBaseTax(1200000.0) == 90000.0
    ensures NewRegimeBaseTax(1500000.0) == 150000.0
  {
  }

  /**
   * Continuity: between any two taxable incomes the base tax grows by at
   * least 0 and at most 30% of the difference, so no slab limit causes a jump.
   */
  lemma NewRegimeBaseTaxContinuous(x: real, y: real)
    requires x <= y
    ensures 0.0 <= NewRegimeBaseTax(y) - NewRegimeBaseTax(x) <= (y - x) * 0.30
  {
  }

  /** Total new-regime tax never decreases as income grows (surcharge bands included). */
  lemma NewRegimeTotalMonotone(income1: real, income2: real)
    requires income1 <= income2
    ensures CalculateTaxNewRegime(income1).totalTax <= CalculateTaxNewRegime(income2).totalTax
  {
    var r1, r2 := CalculateTaxNewRegime(income1), CalculateTaxNewRegime(income2);
    NewRegimeSlabsWellFormed();
    EvaluateSlabsMonotone(NewRegimeSlabs, r1.taxableIncome, r2.taxableIncome);
    SurchargeTablesWellFormed();
    SurchargeRateMonotone(NewRegimeSurcharge, 0, r1.taxableIncome, r2.taxableIncome);
    TotalGrowsWithBaseAndRate(r1.baseTax, r2.baseTax,
      SurchargeRate(NewRegimeSurcharge, r1.taxableIncome), SurchargeRate(NewRegimeSurcharge, r2.taxableIncome));
  }

  /** Golden value: income 10L under the new regime. */
  lemma NewRegimeGolden()
    ensures CalculateTaxNewRegime(1000000.0) == TaxResult(48750.0, 0.0, 1950.0, 50700.0, 925000.0)
  {
    assert NewRegimeBaseTax(925000.0) == 45000.0 + 25000.0 * 0.15 == 48750.0;
    assert NewRegimeSurchargeOn(925000.0, 48750.0) == 0.0;
    assert (48750.0 + 0.0) * 0.04 == 1950.0;
  }

  // ---------------------------------------------------------------------
  // Old regime
  // ---------------------------------------------------------------------

  function OldRegimeBaseTax(taxable: real): real {
    if taxable <= 250000.0 then 0.0
    else if taxable <= 500000.0 then (taxable - 250000.0) * 0.05
    else if taxable <= 1000000.0 then 12500.0 + (taxable - 500000.0) * 0.20
    else 112500.0 + (taxable - 1000000.0) * 0.30
  }

  function OldRegimeSurchargeOn(taxable: real, tax: real): real {
    if taxable > 50000000.0 then tax * 0.37
    else if taxable > 20000000.0 then tax * 0.25
    else if taxable > 10000000.0 then tax * 0.15
    else 0.0
  }

  /** The hard-coded old-regime branches compute the table-driven slab tax of OLD_REGIME_SLABS. */
  lemma OldRegimeBaseTaxMatchesTable(taxable: real)
    ensures OldRegimeBaseTax(taxable) == EvaluateSlabs(OldRegimeSlabs, taxable)
  {
    var s := OldRegimeSlabs;
    var t := taxable;
    if t > 1000000.0 {
      assert SlabTaxFrom(s, 3, 1000000.0, t) == (t - 1000000.0) * 0.30;
      assert SlabTaxFrom(s, 2, 500000.0, t) == 100000.0 + (t - 1000000.0) * 0.30;
      assert SlabTaxFrom(s, 1, 250000.0, t) == 112500.0 + (t - 1000000.0) * 0.30;
    } else if t > 500000.0 {
      assert SlabTaxFrom(s, 2, 500000.0, t) == (t - 500000.0) * 0.20;
      assert SlabTaxFrom(s, 1, 250000.0, t) == 12500.0 + (t - 500000.0) * 0.20;
    } else if t > 250000.0 {
      assert SlabTaxFrom(s, 1, 250000.0, t) == (t - 250000.0) * 0.05;
    }
  }

  /** The old-regime surcharge chain is first-match evaluation of its surcharge table. */
  lemma OldRegimeSurchargeMatchesTable(taxable: real, tax: real)
    ensures OldRegimeSurchargeOn(taxable, tax) == SurchargeRate(OldRegimeSurcharge, taxable) * tax
  {
  }

  function CalculateTaxOldRegime(annualIncome: real, deductions: real): (r: TaxResult)
    ensures r.taxableIncome == annualIncome - deductions
    ensures r.baseTax == EvaluateSlabs(OldRegimeSlabs, r.taxableIncome)
    ensures r.surcharge == SurchargeRate(OldRegimeSurcharge, r.taxableIncome) * r.baseTax
    ensures Consistent(r)
  {
    var taxableIncome := annualIncome - deductions;
    var tax := OldRegimeBaseTax(taxableIncome);
    var surcharge := OldRegimeSurchargeOn(taxableIncome, tax);
    var cess := (tax + surcharge) * 0.04;
    OldRegimeBaseTaxMatchesTable(taxableIncome);
    OldRegimeSurchargeMatchesTable(taxableIncome, tax);
    OldRegimeSlabsWellFormed();
    EvaluateSlabsMonotone(OldRegimeSlabs, taxableIncome, taxableIncome);
    TaxResult(tax, surcharge, cess, tax + surcharge + cess, taxableIncome)
  }

  /** Base tax is 0 whenever taxable income is at most 2.5L, negative taxable income included. */
  lemma OldRegimeZeroBand(annualIncome: real, deductions: real)
    requires annualIncome - deductions <= 250000.0
    ensures CalculateTaxOldRegime(annualIncome, deductions).baseTax == 0.0
    ensures CalculateTaxOldRegime(annualIncome, deductions).totalTax == 0.0
  {
  }

  /** The cumulative base tax at each slab limit of the old regime. */
  lemma OldRegimeBreakpoints()
    ensures OldRegimeBaseTax(250000.0) == 0.0
    ensures OldRegimeBaseTax(500000.0) == 12500.0
    ensures OldRegimeBaseTax(1000000.0) == 112500.0
  {
  }

  /** Continuity of the old-regime base tax: growth between 0 and 30% of the difference. */
  lemma OldRegimeBaseTaxContinuous(x: real, y: real)
    requires x <= y
    ensures 0.0 <= OldRegimeBaseTax(y) - OldRegimeBaseTax(x) <= (y - x) * 0.30
  {
  }

  /** Total old-regime tax never decreases as taxable income grows. */
  lemma OldRegimeTotalMonotone(income1: real, deductions1: real, income2: real, deductions2: real)
    requires income1 - deductions1 <= income2 - deductions2
    ensures CalculateTaxOldRegime(income1, deductions1).totalTax <= CalculateTaxOldRegime(income2, deductions2).totalTax
  {
    var r1, r2 := CalculateTaxOldRegime(income1, deductions1), CalculateTaxOldRegime(income2, deductions2);
    OldRegimeSlabsWellFormed();
    EvaluateSlabsMonotone(OldRegimeSlabs, r1.taxableIncome, r2.taxableIncome);
    SurchargeTablesWellFormed();
    SurchargeRateMonotone(OldRegimeSurcharge, 0, r1.taxableIncome, r2.taxableIncome);
    TotalGrowsWithBaseAndRate(r1.baseTax, r2.baseTax,
      SurchargeRate(OldRegimeSurcharge, r1.taxableIncome), SurchargeRate(OldRegimeSurcharge, r2.taxableIncome));
  }

  /** For a fixed income, claiming more deductions never raises old-regime tax. */
  lemma OldRegimeDeductionsNeverRaiseTax(annualIncome: real, deductions1: real, deductions2: real)
    requires deductions1 <= deductions2
    ensures CalculateTaxOldRegime(annualIncome, deductions2).totalTax <= CalculateTaxOldRegime(annualIncome, deductions1).totalTax
  {
    OldRegimeTotalMonotone(annualIncome, deductions2, annualIncome, deductions1);
  }

  // ---------------------------------------------------------------------
  // Shared
  // ---------------------------------------------------------------------

  /** No surcharge in either regime for taxable income of at most 1 crore. */
  lemma NoSurchargeUpToOneCrore(annualIncome: real, deductions: real)
    requires annualIncome - 75000.0 <= 10000000.0
    requires annualIncome - deductions <= 10000000.0
    ensures CalculateTaxNewRegime(annualIncome).surcharge == 0.0
    ensures CalculateTaxOldRegime(annualIncome, deductions).surcharge == 0.0
  {
    SurchargeRateZeroBelow(NewRegimeSurcharge, 0, annualIncome - 75000.0);
    SurchargeRateZeroBelow(OldRegimeSurcharge, 0, annualIncome - deductions);
  }

  /** (b + b * s) * cess grows when the base b and the surcharge rate s both grow. */
  lemma TotalGrowsWithBaseAndRate(b1: real, b2: real, s1: real, s2: real)
    requires 0.0 <= b1 <= b2
    requires 0.0 <= s1 <= s2
    ensures (b1 + b1 * s1) + (b1 + b1 * s1) * 0.04 <= (b2 + b2 * s2) + (b2 + b2 * s2) * 0.04
  {
    assert b1 * s1 <= b2 * s1;
    assert b2 * s1 <= b2 * s2;
  }
}
