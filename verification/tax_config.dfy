/**
 * The fiscal-year 2024-25 configuration tables (tax_config.py): slab
 * schedules, surcharge bands, cess rate, standard deduction, deduction caps
 * and the advance-tax calendar, together with one generic evaluator for a
 * slab schedule and one for a surcharge table.  The hard-coded branches of
 * the two regime calculators are proved equal to these evaluators in module
 * IncomeTax.
 */
module TaxConfig {

  /** Upper limit of a slab: a finite amount, or `float('inf')` for the top slab. */
  datatype Bound = Finite(value: real) | Unbounded

  /** One slab: income up to `limit` (above the previous slab's limit) is taxed at `rate`. */
  datatype Slab = Slab(limit: Bound, rate: real)

  /** One surcharge band: taxable income strictly above `limit` pays `rate` on the whole base tax. */
  datatype SurchargeBand = SurchargeBand(limit: real, rate: real)

  /** One advance-tax due date with the cumulative percentage due by then. */
  datatype AdvanceDate = AdvanceDate(date: string, percentage: int)

  const StandardDeduction: real := 75000.0

  const NewRegimeSlabs: seq<Slab> := [
    Slab(Finite(300000.0), 0.0),
    Slab(Finite(600000.0), 0.05),
    Slab(Finite(900000.0), 0.10),
    Slab(Finite(1200000.0), 0.15),
    Slab(Finite(1500000.0), 0.20),
    Slab(Unbounded, 0.30)
  ]

  const OldRegimeSlabs: seq<Slab> := [
    Slab(Finite(250000.0), 0.0),
    Slab(Finite(500000.0), 0.05),
    Slab(Finite(1000000.0), 0.20),
    Slab(Unbounded, 0.30)
  ]

  /** Surcharge bands, highest threshold first. */
  const NewRegimeSurcharge: seq<SurchargeBand> := [
    SurchargeBand(50000000.0, 0.25),
    SurchargeBand(20000000.0, 0.15),
    SurchargeBand(10000000.0, 0.10)
  ]

  const OldRegimeSurcharge: seq<SurchargeBand> := [
    SurchargeBand(50000000.0, 0.37),
    SurchargeBand(20000000.0, 0.25),
    SurchargeBand(10000000.0, 0.15)
  ]

  const CessRate: real := 0.04

  /** Deduction caps (DEDUCTION_LIMITS). */
  const Limit80C: real := 150000.0
  const Limit80DSenior: real := 50000.0
  const Limit80DNormal: real := 25000.0
  const Limit80CCD: real := 50000.0

  /** The advance-tax calendar (TAX_DATES["advance_tax"]). */
  const AdvanceTaxDates: seq<AdvanceDate> := [
    AdvanceDate("15 Jun 2024", 15),
    AdvanceDate("15 Sep 2024", 45),
    AdvanceDate("15 Dec 2024", 75),
    AdvanceDate("15 Mar 2025", 100)
  ]

  // ---------------------------------------------------------------------
  // Well-formedness of the tables
  // ---------------------------------------------------------------------

  /**
   * A slab schedule: every slab but the last has a finite limit, the last is
   * unbounded, finite limits strictly increase, rates never decrease and lie
   * in [0, 1).
   */
  ghost predicate WellFormedSlabs(slabs: seq<Slab>) {
    && |slabs| > 0
    && slabs[|slabs| - 1].limit.Unbounded?
    && (forall i :: 0 <= i < |slabs| - 1 ==> slabs[i].limit.Finite?)
    && (forall i, j :: 0 <= i < j < |slabs| - 1 ==> slabs[i].limit.value < slabs[j].limit.value)
    && (forall i, j :: 0 <= i < j < |slabs| ==> slabs[i].rate <= slabs[j].rate)
    && (forall i :: 0 <= i < |slabs| ==> 0.0 <= slabs[i].rate < 1.0)
  }

  /** A surcharge table: thresholds strictly decrease, rates never increase and lie in [0, 1). */
  ghost predicate WellFormedSurcharge(bands: seq<SurchargeBand>) {
    && (forall i, j :: 0 <= i < j < |bands| ==> bands[i].limit > bands[j].limit)
    && (forall i, j :: 0 <= i < j < |bands| ==> bands[i].rate >= bands[j].rate)
    && (forall i :: 0 <= i < |bands| ==> 0.0 <= bands[i].rate < 1.0)
  }

  /** An advance-tax calendar: cumulative percentages strictly increase, are positive and end at 100. */
  ghost predicate WellFormedCalendar(dates: seq<AdvanceDate>) {
    && |dates| > 0
    && dates[0].percentage > 0
    && (forall i, j :: 0 <= i < j < |dates| ==> dates[i].percentage < dates[j].percentage)
    && dates[|dates| - 1].percentage == 100
  }

  lemma NewRegimeSlabsWellFormed()
    ensures WellFormedSlabs(NewRegimeSlabs)
    ensures NewRegimeSlabs[0].limit.value > 0.0
  {
  }

  lemma OldRegimeSlabsWellFormed()
    ensures WellFormedSlabs(OldRegimeSlabs)
    ensures OldRegimeSlabs[0].limit.value > 0.0
  {
  }

  lemma SurchargeTablesWellFormed()
    ensures WellFormedSurcharge(NewRegimeSurcharge)
    ensures WellFormedSurcharge(OldRegimeSurcharge)
  {
  }

  lemma AdvanceTaxDatesWellFormed()
    ensures WellFormedCalendar(AdvanceTaxDates)
    ensures |AdvanceTaxDates| == 4
  {
  }

  // ---------------------------------------------------------------------
  // Generic slab evaluator
  // ---------------------------------------------------------------------

  /** The part of `x` above `lower`, or 0 when `x` does not exceed it. */
  function Above(x: real, lower: real): (r: real)
    ensures r >= 0.0 && r >= x - lower
    ensures r == 0.0 || r == x - lower
  {
    if x > lower then x - lower else 0.0
  }

  /**
   * Tax on `x` from slab `i` onwards, slab `i` starting at `lower`: each
   * fully passed slab contributes its width times its rate, the slab that
   * holds `x` contributes the part of `x` inside it times its rate.
   */
  function SlabTaxFrom(slabs: seq<Slab>, i: nat, lower: real, x: real): real
    decreases |slabs| - i
  {
    if i >= |slabs| then 0.0
    else
      match slabs[i].limit
      case Unbounded => Above(x, lower) * slabs[i].rate
      case Finite(limit) =>
        if x <= limit then Above(x, lower) * slabs[i].rate
        else (limit - lower) * slabs[i].rate + SlabTaxFrom(slabs, i + 1, limit, x)
  }

  /** Base tax on taxable income `x` under a slab schedule whose first slab starts at 0. */
  function EvaluateSlabs(slabs: seq<Slab>, x: real): real {
    SlabTaxFrom(slabs, 0, 0.0, x)
  }

  /** What the monotonicity proof needs of slabs `i..`: non-negative rates, finite limits above `lower` and increasing. */
  ghost predicate ValidFrom(slabs: seq<Slab>, i: nat, lower: real)
    decreases |slabs| - i
  {
    i < |slabs| ==>
      && slabs[i].rate >= 0.0
      && match slabs[i].limit
         case Unbounded => true
         case Finite(limit) => lower < limit && ValidFrom(slabs, i + 1, limit)
  }

  lemma {:induction false} WellFormedIsValid(slabs: seq<Slab>, i: nat, lower: real)
    requires WellFormedSlabs(slabs)
    requires i < |slabs| - 1 ==> lower < slabs[i].limit.value
    ensures ValidFrom(slabs, i, lower)
    decreases |slabs| - i
  {
    if i < |slabs| - 1 {
      var limit := slabs[i].limit.value;
      if i + 1 < |slabs| - 1 {
        assert limit < slabs[i + 1].limit.value;
      }
      WellFormedIsValid(slabs, i + 1, limit);
    }
  }

  lemma {:induction false} SlabTaxNonNegative(slabs: seq<Slab>, i: nat, lower: real, x: real)
    requires ValidFrom(slabs, i, lower)
    ensures SlabTaxFrom(slabs, i, lower, x) >= 0.0
    decreases |slabs| - i
  {
    if i < |slabs| {
      match slabs[i].limit
      case Unbounded =>
      case Finite(limit) =>
        if x > limit {
          SlabTaxNonNegative(slabs, i + 1, limit, x);
        }
    }
  }

  /** A slab schedule with non-negative rates never taxes a larger income less. */
  lemma {:induction false} SlabTaxMonotone(slabs: seq<Slab>, i: nat, lower: real, x: real, y: real)
    requires ValidFrom(slabs, i, lower)
    requires x <= y
    ensures SlabTaxFrom(slabs, i, lower, x) <= SlabTaxFrom(slabs, i, lower, y)
    decreases |slabs| - i
  {
    if i < |slabs| {
      var rate := slabs[i].rate;
      assert Above(x, lower) <= Above(y, lower);
      assert Above(x, lower) * rate <= Above(y, lower) * rate;
      match slabs[i].limit
      case Unbounded =>
      case Finite(limit) =>
        if y > limit {
          SlabTaxNonNegative(slabs, i + 1, limit, y);
          if x > limit {
            SlabTaxMonotone(slabs, i + 1, limit, x, y);
          } else {
            assert Above(x, lower) <= limit - lower;
            assert Above(x, lower) * rate <= (limit - lower) * rate;
          }
        }
    }
  }

  /** Monotonicity of the evaluator over a well-formed schedule whose first limit is positive. */
  lemma EvaluateSlabsMonotone(slabs: seq<Slab>, x: real, y: real)
    requires WellFormedSlabs(slabs)
    requires |slabs| > 1 ==> slabs[0].limit.value > 0.0
    requires x <= y
    ensures 0.0 <= EvaluateSlabs(slabs, x) <= EvaluateSlabs(slabs, y)
  {
    WellFormedIsValid(slabs, 0, 0.0);
    SlabTaxNonNegative(slabs, 0, 0.0, x);
    SlabTaxMonotone(slabs, 0, 0.0, x, y);
  }

  // ---------------------------------------------------------------------
  // Generic surcharge evaluator
  // ---------------------------------------------------------------------

  /** The rate of the first band from `i` on whose threshold taxable income strictly exceeds, else 0. */
  function SurchargeRateFrom(bands: seq<SurchargeBand>, i: nat, taxable: real): real
    decreases |bands| - i
  {
    if i >= |bands| then 0.0
    else if taxable > bands[i].limit then bands[i].rate
    else SurchargeRateFrom(bands, i + 1, taxable)
  }

  /** First-match surcharge rate over a whole table, highest threshold first. */
  function SurchargeRate(bands: seq<SurchargeBand>, taxable: real): real {
    SurchargeRateFrom(bands, 0, taxable)
  }

  lemma {:induction false} SurchargeRateBounded(bands: seq<SurchargeBand>, i: nat, taxable: real)
    requires WellFormedSurcharge(bands)
    ensures 0.0 <= SurchargeRateFrom(bands, i, taxable)
    ensures forall j :: 0 <= j < i && j < |bands| ==> SurchargeRateFrom(bands, i, taxable) <= bands[j].rate
    decreases |bands| - i
  {
    if i < |bands| && !(taxable > bands[i].limit) {
      SurchargeRateBounded(bands, i + 1, taxable);
    }
  }

  /** Over a well-formed table the first-match rate never decreases as taxable income grows. */
  lemma {:induction false} SurchargeRateMonotone(bands: seq<SurchargeBand>, i: nat, x: real, y: real)
    requires WellFormedSurcharge(bands)
    requires x <= y
    ensures 0.0 <= SurchargeRateFrom(bands, i, x) <= SurchargeRateFrom(bands, i, y)
    decreases |bands| - i
  {
    SurchargeRateBounded(bands, i, x);
    if i < |bands| {
      if y > bands[i].limit {
        if !(x > bands[i].limit) {
          SurchargeRateBounded(bands, i + 1, x);
        }
      } else {
        SurchargeRateMonotone(bands, i + 1, x, y);
      }
    }
  }

  /** Below or at every threshold of a table, no surcharge applies. */
  lemma {:induction false} SurchargeRateZeroBelow(bands: seq<SurchargeBand>, i: nat, taxable: real)
    requires forall j :: i <= j < |bands| ==> taxable <= bands[j].limit
    ensures SurchargeRateFrom(bands, i, taxable) == 0.0
    decreases |bands| - i
  {
    if i < |bands| {
      SurchargeRateZeroBelow(bands, i + 1, taxable);
    }
  }
}
