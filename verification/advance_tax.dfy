/**
 * The advance-tax schedule of app.py (calculate_advance_tax_schedule with
 * two arguments, which shadows the one-argument version of utils.py).
 * Regular tax (total tax minus all quarterly capital-gains tax) is due in
 * four instalments that bring the cumulative payment up to 15, 45, 75 and
 * 100 percent; each instalment also carries that quarter's capital-gains
 * tax in full.
 */
module AdvanceTax {
  import opened CapitalGains
  import TaxConfig

  /** One row of the `quarters` table: quarter, due-date label, cumulative percentage. */
  datatype QuarterInfo = QuarterInfo(quarter: Quarter, due: string, percentage: int)

  const ScheduleQuarters: seq<QuarterInfo> := [
    QuarterInfo(Q1, "June 15, 2024", 15),
    QuarterInfo(Q2, "September 15, 2024", 45),
    QuarterInfo(Q3, "December 15, 2024", 75),
    QuarterInfo(Q4, "March 15, 2025", 100)
  ]

  /** One entry of the returned schedule. */
  datatype Installment = Installment(
    dueDate: string,
    percentage: int,
    installmentPercentage: int,
    regularTax: real,
    capitalGainsTax: real,
    totalAmount: real)

  /** The cumulative percentage reached before instalment `i` (0 before the first). */
  function PreviousPercentage(i: nat): int
    requires i <= |ScheduleQuarters|
  {
    if i == 0 then 0 else ScheduleQuarters[i - 1].percentage
  }

  /** The part of the total tax not attributable to capital gains. */
  function RegularTax(totalTax: real, cgTaxByQuarter: map<Quarter, real>): real {
    totalTax - Sum(cgTaxByQuarter)
  }

  /**
   * Closed form of instalment `i`: its slice of the percentages applied to
   * the regular tax, plus that quarter's capital-gains tax.
   */
  function InstallmentAt(totalTax: real, cgTaxByQuarter: map<Quarter, real>, i: nat): Installment
    requires i < |ScheduleQuarters|
  {
    var info := ScheduleQuarters[i];
    var slice := PreviousPercentage(i + 1) - PreviousPercentage(i);
    var regular := RegularTax(totalTax, cgTaxByQuarter) * (slice as real) / 100.0;
    var cg := AmountIn(cgTaxByQuarter, info.quarter);
    Installment(info.due, info.percentage, slice, regular, cg, regular + cg)
  }

  /** Reference definition of the whole schedule. */
  function Schedule(totalTax: real, cgTaxByQuarter: map<Quarter, real>): (s: seq<Installment>)
    ensures |s| == |ScheduleQuarters| == 4
    ensures forall i :: 0 <= i < |s| ==> s[i] == InstallmentAt(totalTax, cgTaxByQuarter, i)
  {
    [InstallmentAt(totalTax, cgTaxByQuarter, 0), InstallmentAt(totalTax, cgTaxByQuarter, 1),
     InstallmentAt(totalTax, cgTaxByQuarter, 2), InstallmentAt(totalTax, cgTaxByQuarter, 3)]
  }

  /**
   * The loop of calculate_advance_tax_schedule: each instalment's regular
   * part is the running increment up to its cumulative percentage.
   */
  method AdvanceTaxSchedule(totalTax: real, cgTaxByQuarter: map<Quarter, real>) returns (schedule: seq<Installment>)
    ensures schedule == Schedule(totalTax, cgTaxByQuarter)
  {
    var regularTax := totalTax - Sum(cgTaxByQuarter);
    var cumulativeTax := 0.0;
    schedule := [];
    var prevPercentage := 0;

    for i := 0 to |ScheduleQuarters|
      invariant |schedule| == i
      invariant prevPercentage == PreviousPercentage(i)
      invariant cumulativeTax == regularTax * (prevPercentage as real) / 100.0
      invariant forall k :: 0 <= k < i ==> schedule[k] == InstallmentAt(totalTax, cgTaxByQuarter, k)
    {
      var info := ScheduleQuarters[i];
      var regularTaxDue := (regularTax * (info.percentage as real) / 100.0) - cumulativeTax;
      var cgTaxDue := AmountIn(cgTaxByQuarter, info.quarter);
      var totalDue := regularTaxDue + cgTaxDue;
      PercentSlices(regularTax, prevPercentage, info.percentage);
      assert regularTaxDue == InstallmentAt(totalTax, cgTaxByQuarter, i).regularTax;
      cumulativeTax := cumulativeTax + regularTaxDue;
      schedule := schedule + [Installment(info.due, info.percentage, info.percentage - prevPercentage,
                                          regularTaxDue, cgTaxDue, totalDue)];
      prevPercentage := info.percentage;
    }
  }

  // ---------------------------------------------------------------------
  // Properties of the schedule
  // ---------------------------------------------------------------------

  function SumRegular(s: seq<Installment>): real {
    if s == [] then 0.0 else SumRegular(s[..|s| - 1]) + s[|s| - 1].regularTax
  }

  function SumCapitalGains(s: seq<Installment>): real {
    if s == [] then 0.0 else SumCapitalGains(s[..|s| - 1]) + s[|s| - 1].capitalGainsTax
  }

  function SumTotal(s: seq<Installment>): real {
    if s == [] then 0.0 else SumTotal(s[..|s| - 1]) + s[|s| - 1].totalAmount
  }

  function SumInstallmentPercentage(s: seq<Installment>): int {
    if s == [] then 0 else SumInstallmentPercentage(s[..|s| - 1]) + s[|s| - 1].installmentPercentage
  }

  /** Instalment percentages are 15/30/30/25 and the due dates and quarters follow Q1..Q4. */
  lemma ScheduleShape(totalTax: real, cgTaxByQuarter: map<Quarter, real>)
    ensures var s := Schedule(totalTax, cgTaxByQuarter);
      && s[0].installmentPercentage == 15 && s[1].installmentPercentage == 30
      && s[2].installmentPercentage == 30 && s[3].installmentPercentage == 25
      && s[0].regularTax == RegularTax(totalTax, cgTaxByQuarter) * 0.15
      && s[1].regularTax == RegularTax(totalTax, cgTaxByQuarter) * 0.30
      && s[2].regularTax == RegularTax(totalTax, cgTaxByQuarter) * 0.30
      && s[3].regularTax == RegularTax(totalTax, cgTaxByQuarter) * 0.25
      && (forall i :: 0 <= i < 4 ==> s[i].capitalGainsTax == AmountIn(cgTaxByQuarter, AllQuarters[i]))
      && (forall i :: 0 <= i < 4 ==> s[i].totalAmount == s[i].regularTax + s[i].capitalGainsTax)
  {
  }

  /** The cumulative percentages are those of the advance-tax calendar in the configuration. */
  lemma ScheduleFollowsCalendar(totalTax: real, cgTaxByQuarter: map<Quarter, real>)
    ensures forall i :: 0 <= i < 4 ==>
      Schedule(totalTax, cgTaxByQuarter)[i].percentage == TaxConfig.AdvanceTaxDates[i].percentage
  {
  }

  /** Adding the slice between two cumulative percentages of an amount reaches the larger one. */
  lemma PercentSlices(x: real, a: int, b: int)
    ensures x * (a as real) / 100.0 + x * ((b - a) as real) / 100.0 == x * (b as real) / 100.0
  {
  }

  /** The regular part of every instalment is its slice of the cumulative percentages. */
  ghost predicate RegularPartsAreSlices(s: seq<Installment>, regular: real) {
    && |s| == 4
    && forall i :: 0 <= i < 4 ==>
         s[i].regularTax == regular * ((PreviousPercentage(i + 1) - PreviousPercentage(i)) as real) / 100.0
  }

  /** Running total: the regular parts of the first k instalments reach the k-th cumulative percentage. */
  lemma {:induction false} CumulativeRegular(s: seq<Installment>, regular: real, k: nat)
    requires RegularPartsAreSlices(s, regular)
    requires k <= 4
    ensures SumRegular(s[..k]) == regular * (PreviousPercentage(k) as real) / 100.0
  {
    if k > 0 {
      var a, b := PreviousPercentage(k - 1), PreviousPercentage(k);
      CumulativeRegular(s, regular, k - 1);
      assert s[..k][..k - 1] == s[..k - 1];
      PercentSlices(regular, a, b);
    }
  }

  lemma ScheduleRegularPartsAreSlices(totalTax: real, cgTaxByQuarter: map<Quarter, real>)
    ensures RegularPartsAreSlices(Schedule(totalTax, cgTaxByQuarter), RegularTax(totalTax, cgTaxByQuarter))
  {
    var s := Schedule(totalTax, cgTaxByQuarter);
    forall i | 0 <= i < 4
      ensures s[i].regularTax
           == RegularTax(totalTax, cgTaxByQuarter) * ((PreviousPercentage(i + 1) - PreviousPercentage(i)) as real) / 100.0
    {
      assert s[i] == InstallmentAt(totalTax, cgTaxByQuarter, i);
    }
  }

  /** The regular parts add up to the total tax minus all quarterly capital-gains tax. */
  lemma RegularPartsAddUp(totalTax: real, cgTaxByQuarter: map<Quarter, real>)
    ensures SumRegular(Schedule(totalTax, cgTaxByQuarter)) == totalTax - Sum(cgTaxByQuarter)
  {
    var s := Schedule(totalTax, cgTaxByQuarter);
    ScheduleRegularPartsAreSlices(totalTax, cgTaxByQuarter);
    CumulativeRegular(s, RegularTax(totalTax, cgTaxByQuarter), 4);
    assert s[..4] == s;
  }

  /** Unfolding the sums over a four-entry schedule. */
  lemma SumsOfFour(s: seq<Installment>)
    requires |s| == 4
    ensures SumInstallmentPercentage(s)
         == s[0].installmentPercentage + s[1].installmentPercentage + s[2].installmentPercentage + s[3].installmentPercentage
    ensures SumCapitalGains(s) == s[0].capitalGainsTax + s[1].capitalGainsTax + s[2].capitalGainsTax + s[3].capitalGainsTax
    ensures SumTotal(s) == s[0].totalAmount + s[1].totalAmount + s[2].totalAmount + s[3].totalAmount
    ensures SumRegular(s) == s[0].regularTax + s[1].regularTax + s[2].regularTax + s[3].regularTax
  {
    var s3, s2, s1 := s[..3], s[..2], s[..1];
    assert s[..|s| - 1] == s3 && s3[..|s3| - 1] == s2 && s2[..|s2| - 1] == s1 && s1[..|s1| - 1] == [];
    assert s3[2] == s[2] && s2[1] == s[1] && s1[0] == s[0];
    assert SumRegular(s) == SumRegular(s3) + s[3].regularTax;
    assert SumRegular(s3) == SumRegular(s2) + s[2].regularTax;
    assert SumRegular(s2) == SumRegular(s1) + s[1].regularTax;
    assert SumRegular(s1) == s[0].regularTax;
    assert SumCapitalGains(s) == SumCapitalGains(s3) + s[3].capitalGainsTax;
    assert SumCapitalGains(s3) == SumCapitalGains(s2) + s[2].capitalGainsTax;
    assert SumCapitalGains(s2) == SumCapitalGains(s1) + s[1].capitalGainsTax;
    assert SumCapitalGains(s1) == s[0].capitalGainsTax;
    assert SumTotal(s) == SumTotal(s3) + s[3].totalAmount;
    assert SumTotal(s3) == SumTotal(s2) + s[2].totalAmount;
    assert SumTotal(s2) == SumTotal(s1) + s[1].totalAmount;
    assert SumTotal(s1) == s[0].totalAmount;
    assert SumInstallmentPercentage(s) == SumInstallmentPercentage(s3) + s[3].installmentPercentage;
    assert SumInstallmentPercentage(s3) == SumInstallmentPercentage(s2) + s[2].installmentPercentage;
    assert SumInstallmentPercentage(s2) == SumInstallmentPercentage(s1) + s[1].installmentPercentage;
    assert SumInstallmentPercentage(s1) == s[0].installmentPercentage;
  }

  /** Instalment percentages add up to 100. */
  lemma InstallmentPercentagesAddUp(totalTax: real, cgTaxByQuarter: map<Quarter, real>)
    ensures SumInstallmentPercentage(Schedule(totalTax, cgTaxByQuarter)) == 100
  {
    SumsOfFour(Schedule(totalTax, cgTaxByQuarter));
  }

  /** Every quarter's capital-gains tax is carried once, in full, so the capital-gains parts add up to their sum. */
  lemma CapitalGainsPartsAddUp(totalTax: real, cgTaxByQuarter: map<Quarter, real>)
    ensures SumCapitalGains(Schedule(totalTax, cgTaxByQuarter)) == Sum(cgTaxByQuarter)
  {
    SumsOfFour(Schedule(totalTax, cgTaxByQuarter));
  }

  /** The instalment totals add up to the total tax passed in. */
  lemma TotalsAddUp(totalTax: real, cgTaxByQuarter: map<Quarter, real>)
    ensures SumTotal(Schedule(totalTax, cgTaxByQuarter)) == totalTax
  {
    var s := Schedule(totalTax, cgTaxByQuarter);
    SumsOfFour(s);
    RegularPartsAddUp(totalTax, cgTaxByQuarter);
    CapitalGainsPartsAddUp(totalTax, cgTaxByQuarter);
  }
}
