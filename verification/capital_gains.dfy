/**
 * Quarter-wise capital-gains tax (app.py, calculate_capital_gains_tax).
 * Long-term gains get one annual exemption and a flat rate; that tax is
 * allocated back to the quarters in proportion to each quarter's share of
 * the total long-term gain.  Short-term gains are taxed quarter by quarter.
 */
module CapitalGains {

  datatype Quarter = Q1 | Q2 | Q3 | Q4

  /** The four quarters of the fiscal year, in calendar order. */
  const AllQuarters: seq<Quarter> := [Q1, Q2, Q3, Q4]

  const LtcgExemption: real := 125000.0
  const LtcgRate: real := 0.125
  const StcgRate: real := 0.20

  /** The tax a single quarter owes. */
  datatype QuarterTax = QuarterTax(ltcgTax: real, stcgTax: real, total: real)

  /** The dictionary calculate_capital_gains_tax returns. */
  datatype CapitalGainsResult = CapitalGainsResult(
    ltcgTax: real,
    stcgTax: real,
    totalCgTax: real,
    taxableLtcg: real,
    quarterlyTax: map<Quarter, QuarterTax>)

  /** The amount a per-quarter map holds for `q`, a missing quarter counting as 0. */
  function AmountIn(m: map<Quarter, real>, q: Quarter): real {
    if q in m then m[q] else 0.0
  }

  /** The sum of the values of a per-quarter map. */
  function Sum(m: map<Quarter, real>): real {
    AmountIn(m, Q1) + AmountIn(m, Q2) + AmountIn(m, Q3) + AmountIn(m, Q4)
  }

  ghost predicate NonNegative(m: map<Quarter, real>) {
    forall q :: q in m ==> m[q] >= 0.0
  }

  /** Projections of the quarterly breakdown onto one of its columns. */
  function LtcgTaxes(quarterly: map<Quarter, QuarterTax>): map<Quarter, real> {
    map q | q in quarterly :: quarterly[q].ltcgTax
  }

  function StcgTaxes(quarterly: map<Quarter, QuarterTax>): map<Quarter, real> {
    map q | q in quarterly :: quarterly[q].stcgTax
  }

  function Totals(quarterly: map<Quarter, QuarterTax>): map<Quarter, real> {
    map q | q in quarterly :: quarterly[q].total
  }

  /** Long-term gain left after the annual exemption, never negative. */
  function TaxableLtcg(totalLtcg: real): (r: real)
    ensures r >= 0.0 && r >= totalLtcg - LtcgExemption
    ensures r == 0.0 || r == totalLtcg - LtcgExemption
  {
    if totalLtcg - LtcgExemption > 0.0 then totalLtcg - LtcgExemption else 0.0
  }

  /**
   * The fraction of the annual long-term tax a quarter owes: its share of
   * the total long-term gain when that total exceeds the exemption, else 0.
   */
  function LtcgShare(ltcg: map<Quarter, real>, q: Quarter): real {
    if Sum(ltcg) > LtcgExemption then AmountIn(ltcg, q) / Sum(ltcg) else 0.0
  }

  /** Reference definition of what calculate_capital_gains_tax returns. */
  function CapitalGainsOf(ltcg: map<Quarter, real>, stcg: map<Quarter, real>): (r: CapitalGainsResult)
    requires ltcg.Keys <= stcg.Keys
    ensures r.quarterlyTax.Keys == ltcg.Keys
    ensures r.taxableLtcg >= 0.0 && r.taxableLtcg >= Sum(ltcg) - LtcgExemption
    ensures r.totalCgTax == r.ltcgTax + r.stcgTax
  {
    var taxable := TaxableLtcg(Sum(ltcg));
    var ltcgTax := taxable * LtcgRate;
    var stcgTax := Sum(stcg) * StcgRate;
    var quarterly := map q | q in ltcg :: QuarterTaxOf(LtcgShare(ltcg, q), ltcgTax, stcg[q]);
    CapitalGainsResult(ltcgTax, stcgTax, ltcgTax + stcgTax, taxable, quarterly)
  }

  /** A quarter's entry: its share of the annual long-term tax and the short-term rate on its own gain. */
  function QuarterTaxOf(share: real, ltcgTax: real, quarterStcg: real): QuarterTax {
    QuarterTax(share * ltcgTax, quarterStcg * StcgRate, share * ltcgTax + quarterStcg * StcgRate)
  }

  /**
   * The loop of calculate_capital_gains_tax: the annual figures first, then
   * one entry of the quarterly breakdown per quarter of the long-term map.
   * A quarter missing from the short-term map raises in the source, hence
   * the precondition.
   */
  method CalculateCapitalGainsTax(ltcgByQuarter: map<Quarter, real>, stcgByQuarter: map<Quarter, real>)
    returns (r: CapitalGainsResult)
    requires ltcgByQuarter.Keys <= stcgByQuarter.Keys
    ensures r == CapitalGainsOf(ltcgByQuarter, stcgByQuarter)
  {
    var totalLtcg := Sum(ltcgByQuarter);
    var totalStcg := Sum(stcgByQuarter);

    var ltcgExemption := 125000.0;
    var taxableLtcg := if totalLtcg - ltcgExemption > 0.0 then totalLtcg - ltcgExemption else 0.0;
    var ltcgTax := taxableLtcg * 0.125;

    var stcgTax := totalStcg * 0.20;

    ghost var spec := CapitalGainsOf(ltcgByQuarter, stcgByQuarter);
    assert ltcgTax == spec.ltcgTax;

    var quarterlyTax: map<Quarter, QuarterTax> := map[];
    var pending := ltcgByQuarter.Keys;
    while pending != {}
      invariant pending <= ltcgByQuarter.Keys
      invariant quarterlyTax.Keys == ltcgByQuarter.Keys - pending
      invariant forall q :: q in quarterlyTax ==> quarterlyTax[q] == spec.quarterlyTax[q]
      decreases pending
    {
      var quarter :| quarter in pending;
      var quarterLtcg := ltcgByQuarter[quarter];
      var quarterStcg := stcgByQuarter[quarter];

      var quarterLtcgTax;
      if totalLtcg > ltcgExemption {
        quarterLtcgTax := (quarterLtcg / totalLtcg) * ltcgTax;
      } else {
        quarterLtcgTax := 0.0;
      }

      var quarterStcgTax := quarterStcg * 0.20;

      QuarterEntry(ltcgByQuarter, stcgByQuarter, quarter);
      quarterlyTax := quarterlyTax[quarter := QuarterTax(quarterLtcgTax, quarterStcgTax, quarterLtcgTax + quarterStcgTax)];
      pending := pending - {quarter};
    }

    r := CapitalGainsResult(ltcgTax, stcgTax, ltcgTax + stcgTax, taxableLtcg, quarterlyTax);
  }

  /** The reference entry of a visited quarter, with its share written as the loop computes it. */
  lemma QuarterEntry(ltcg: map<Quarter, real>, stcg: map<Quarter, real>, q: Quarter)
    requires ltcg.Keys <= stcg.Keys && q in ltcg
    ensures LtcgShare(ltcg, q) == if Sum(ltcg) > 125000.0 then ltcg[q] / Sum(ltcg) else 0.0
    ensures CapitalGainsOf(ltcg, stcg).quarterlyTax[q]
         == QuarterTaxOf(LtcgShare(ltcg, q), CapitalGainsOf(ltcg, stcg).ltcgTax, stcg[q])
  {
  }

  // ---------------------------------------------------------------------
  // Properties of the breakdown
  // ---------------------------------------------------------------------

  /**
   * The rates of the breakdown: long-term tax is 12.5% of the taxable long-term
   * gain, short-term gains are taxed at a flat 20% both for the year and per
   * quarter, and each quarter's total is its long-term plus short-term tax.
   */
  lemma CapitalGainsRates(ltcg: map<Quarter, real>, stcg: map<Quarter, real>)
    requires ltcg.Keys <= stcg.Keys
    ensures CapitalGainsOf(ltcg, stcg).ltcgTax == CapitalGainsOf(ltcg, stcg).taxableLtcg * 0.125
    ensures CapitalGainsOf(ltcg, stcg).taxableLtcg == TaxableLtcg(Sum(ltcg))
    ensures CapitalGainsOf(ltcg, stcg).stcgTax == Sum(stcg) * 0.20
    ensures forall q :: q in ltcg ==>
      && CapitalGainsOf(ltcg, stcg).quarterlyTax[q].stcgTax == stcg[q] * 0.20
      && CapitalGainsOf(ltcg, stcg).quarterlyTax[q].total
         == CapitalGainsOf(ltcg, stcg).quarterlyTax[q].ltcgTax + CapitalGainsOf(ltcg, stcg).quarterlyTax[q].stcgTax
  {
  }

  /** The annual exemption: nothing is owed on long-term gains up to 1.25L in total. */
  lemma ExemptionCoversSmallTotals(ltcg: map<Quarter, real>, stcg: map<Quarter, real>)
    requires ltcg.Keys <= stcg.Keys
    requires Sum(ltcg) <= LtcgExemption
    ensures CapitalGainsOf(ltcg, stcg).taxableLtcg == 0.0
    ensures CapitalGainsOf(ltcg, stcg).ltcgTax == 0.0
    ensures forall q :: q in ltcg ==> CapitalGainsOf(ltcg, stcg).quarterlyTax[q].ltcgTax == 0.0
  {
  }

  /** Above the exemption, long-term tax is 12.5% of the excess. */
  lemma LtcgTaxOnExcess(ltcg: map<Quarter, real>, stcg: map<Quarter, real>)
    requires ltcg.Keys <= stcg.Keys
    requires Sum(ltcg) > LtcgExemption
    ensures CapitalGainsOf(ltcg, stcg).taxableLtcg == Sum(ltcg) - 125000.0
    ensures CapitalGainsOf(ltcg, stcg).ltcgTax == (Sum(ltcg) - 125000.0) * 0.125
  {
  }

  /** The exemption boundary: a total of 125000 owes nothing, 125001 owes 0.125. */
  lemma ExemptionBoundary(ltcg: map<Quarter, real>, stcg: map<Quarter, real>)
    requires ltcg.Keys <= stcg.Keys
    requires Sum(ltcg) == 125000.0 || Sum(ltcg) == 125001.0
    ensures CapitalGainsOf(ltcg, stcg).ltcgTax == if Sum(ltcg) == 125000.0 then 0.0 else 0.125
  {
  }

  /** Four amounts each scaled by tax / total add up to the tax when they add up to the total. */
  lemma ProportionalSharesAddUp(a: real, b: real, c: real, d: real, tax: real)
    requires a + b + c + d != 0.0
    ensures (a / (a + b + c + d)) * tax + (b / (a + b + c + d)) * tax
          + (c / (a + b + c + d)) * tax + (d / (a + b + c + d)) * tax == tax
  {
    var t := a + b + c + d;
    var k := tax / t;
    ScaledShare(a, t, tax);
    ScaledShare(b, t, tax);
    ScaledShare(c, t, tax);
    ScaledShare(d, t, tax);
    calc {
      (a / t) * tax + (b / t) * tax + (c / t) * tax + (d / t) * tax;
      a * k + b * k + c * k + d * k;
      (a + b + c + d) * k;
      t * k;
      tax;
    }
  }

  lemma ScaledShare(a: real, t: real, tax: real)
    requires t != 0.0
    ensures (a / t) * tax == a * (tax / t)
  {
  }

  /** A quarter's entry in the long-term column is its share of the annual long-term tax; absent quarters count as 0. */
  lemma LtcgColumnEntry(ltcg: map<Quarter, real>, stcg: map<Quarter, real>, q: Quarter)
    requires ltcg.Keys <= stcg.Keys
    ensures AmountIn(LtcgTaxes(CapitalGainsOf(ltcg, stcg).quarterlyTax), q)
         == LtcgShare(ltcg, q) * CapitalGainsOf(ltcg, stcg).ltcgTax
  {
    var r := CapitalGainsOf(ltcg, stcg);
    var share := LtcgShare(ltcg, q);
    if q in ltcg {
      assert r.quarterlyTax[q] == QuarterTaxOf(share, r.ltcgTax, stcg[q]);
      assert LtcgTaxes(r.quarterlyTax)[q] == r.quarterlyTax[q].ltcgTax;
    } else {
      assert q !in LtcgTaxes(r.quarterlyTax);
      assert share == 0.0 by {
        assert AmountIn(ltcg, q) == 0.0;
      }
      assert share * r.ltcgTax == 0.0;
    }
  }

  /** The quarterly long-term taxes add up to the annual long-term tax, whatever the inputs. */
  lemma QuarterlyLtcgAddsUp(ltcg: map<Quarter, real>, stcg: map<Quarter, real>)
    requires ltcg.Keys <= stcg.Keys
    ensures Sum(LtcgTaxes(CapitalGainsOf(ltcg, stcg).quarterlyTax)) == CapitalGainsOf(ltcg, stcg).ltcgTax
  {
    var r := CapitalGainsOf(ltcg, stcg);
    var m := LtcgTaxes(r.quarterlyTax);
    forall q ensures AmountIn(m, q) == LtcgShare(ltcg, q) * r.ltcgTax {
      LtcgColumnEntry(ltcg, stcg, q);
    }
    SharedColumnAddsUp(m, ltcg, r.ltcgTax);
    assert Sum(ltcg) <= LtcgExemption ==> r.ltcgTax == 0.0 by {
      assert r.ltcgTax == TaxableLtcg(Sum(ltcg)) * LtcgRate;
    }
  }

  /** A column holding each quarter's share of a tax adds up to the tax above the exemption, to 0 otherwise. */
  lemma SharedColumnAddsUp(m: map<Quarter, real>, ltcg: map<Quarter, real>, tax: real)
    requires forall q :: AmountIn(m, q) == LtcgShare(ltcg, q) * tax
    ensures Sum(m) == if Sum(ltcg) > LtcgExemption then tax else 0.0
  {
    assert Sum(m) == AmountIn(m, Q1) + AmountIn(m, Q2) + AmountIn(m, Q3) + AmountIn(m, Q4);
    SharesAddUp(ltcg, tax);
  }

  /** The four shares of a tax add up to the tax above the exemption, to 0 at or below it. */
  lemma SharesAddUp(ltcg: map<Quarter, real>, tax: real)
    ensures LtcgShare(ltcg, Q1) * tax + LtcgShare(ltcg, Q2) * tax
          + LtcgShare(ltcg, Q3) * tax + LtcgShare(ltcg, Q4) * tax
         == if Sum(ltcg) > LtcgExemption then tax else 0.0
  {
    if Sum(ltcg) > LtcgExemption {
      ProportionalSharesAddUp(AmountIn(ltcg, Q1), AmountIn(ltcg, Q2), AmountIn(ltcg, Q3), AmountIn(ltcg, Q4), tax);
    }
  }

  /** When both maps cover the same quarters, the quarterly short-term taxes add up to the annual one. */
  lemma QuarterlyStcgAddsUp(ltcg: map<Quarter, real>, stcg: map<Quarter, real>)
    requires ltcg.Keys == stcg.Keys
    ensures Sum(StcgTaxes(CapitalGainsOf(ltcg, stcg).quarterlyTax)) == CapitalGainsOf(ltcg, stcg).stcgTax
  {
    var r := CapitalGainsOf(ltcg, stcg);
    var m := StcgTaxes(r.quarterlyTax);
    forall q | q in AllQuarters
      ensures AmountIn(m, q) == AmountIn(stcg, q) * StcgRate
    {
    }
  }

  /** When both maps cover the same quarters, the quarterly totals add up to the total capital-gains tax. */
  lemma QuarterlyTotalsAddUp(ltcg: map<Quarter, real>, stcg: map<Quarter, real>)
    requires ltcg.Keys == stcg.Keys
    ensures Sum(Totals(CapitalGainsOf(ltcg, stcg).quarterlyTax)) == CapitalGainsOf(ltcg, stcg).totalCgTax
  {
    var r := CapitalGainsOf(ltcg, stcg);
    QuarterlyLtcgAddsUp(ltcg, stcg);
    QuarterlyStcgAddsUp(ltcg, stcg);
    var t, l, s := Totals(r.quarterlyTax), LtcgTaxes(r.quarterlyTax), StcgTaxes(r.quarterlyTax);
    forall q | q in AllQuarters
      ensures AmountIn(t, q) == AmountIn(l, q) + AmountIn(s, q)
    {
    }
  }

  /** With non-negative gains a quarter's share of the long-term tax lies between 0 and 1. */
  lemma ShareIsFraction(ltcg: map<Quarter, real>, q: Quarter)
    requires NonNegative(ltcg)
    ensures 0.0 <= LtcgShare(ltcg, q) <= 1.0
  {
    if Sum(ltcg) > LtcgExemption {
      var a, total := AmountIn(ltcg, q), Sum(ltcg);
      assert 0.0 <= a <= total by {
        assert forall p :: AmountIn(ltcg, p) >= 0.0;
      }
      FractionBounds(a, total);
    }
  }

  lemma FractionBounds(a: real, total: real)
    requires 0.0 <= a <= total && total > 0.0
    ensures 0.0 <= a / total <= 1.0
  {
  }

  /** With non-negative gains every figure is non-negative and no quarter owes more long-term tax than the year. */
  lemma CapitalGainsNonNegative(ltcg: map<Quarter, real>, stcg: map<Quarter, real>)
    requires ltcg.Keys <= stcg.Keys
    requires NonNegative(ltcg) && NonNegative(stcg)
    ensures CapitalGainsOf(ltcg, stcg).ltcgTax >= 0.0
    ensures CapitalGainsOf(ltcg, stcg).stcgTax >= 0.0
    ensures forall q :: q in ltcg ==>
      && 0.0 <= CapitalGainsOf(ltcg, stcg).quarterlyTax[q].ltcgTax <= CapitalGainsOf(ltcg, stcg).ltcgTax
      && CapitalGainsOf(ltcg, stcg).quarterlyTax[q].stcgTax >= 0.0
      && CapitalGainsOf(ltcg, stcg).quarterlyTax[q].total >= 0.0
  {
    var r := CapitalGainsOf(ltcg, stcg);
    assert Sum(stcg) >= 0.0 by {
      assert forall p :: AmountIn(stcg, p) >= 0.0;
    }
    forall q | q in ltcg
      ensures 0.0 <= r.quarterlyTax[q].ltcgTax <= r.ltcgTax
      ensures r.quarterlyTax[q].stcgTax >= 0.0
      ensures r.quarterlyTax[q].total >= 0.0
    {
      var share := LtcgShare(ltcg, q);
      ShareIsFraction(ltcg, q);
      assert r.quarterlyTax[q] == QuarterTaxOf(share, r.ltcgTax, stcg[q]);
      QuarterTaxBounds(share, r.ltcgTax, stcg[q]);
    }
  }

  lemma QuarterTaxBounds(share: real, ltcgTax: real, quarterStcg: real)
    requires 0.0 <= share <= 1.0 && ltcgTax >= 0.0 && quarterStcg >= 0.0
    ensures 0.0 <= QuarterTaxOf(share, ltcgTax, quarterStcg).ltcgTax <= ltcgTax
    ensures QuarterTaxOf(share, ltcgTax, quarterStcg).stcgTax >= 0.0
    ensures QuarterTaxOf(share, ltcgTax, quarterStcg).total >= 0.0
  {
    assert share * ltcgTax <= 1.0 * ltcgTax;
  }

  /** Two equal quarters above the exemption split the long-term tax equally. */
  lemma ProportionalExample()
    ensures var r := CapitalGainsOf(map[Q1 := 100000.0, Q2 := 100000.0, Q3 := 0.0, Q4 := 0.0],
                                    map[Q1 := 0.0, Q2 := 0.0, Q3 := 0.0, Q4 := 0.0]);
      && r.taxableLtcg == 75000.0
      && r.ltcgTax == 9375.0
      && r.quarterlyTax[Q1].ltcgTax == 4687.5
      && r.quarterlyTax[Q2].ltcgTax == 4687.5
      && r.quarterlyTax[Q3].ltcgTax == 0.0
      && r.quarterlyTax[Q4].ltcgTax == 0.0
  {
    var ltcg := map[Q1 := 100000.0, Q2 := 100000.0, Q3 := 0.0, Q4 := 0.0];
    assert Sum(ltcg) == 200000.0;
    assert LtcgShare(ltcg, Q1) == 0.5;
  }
}
