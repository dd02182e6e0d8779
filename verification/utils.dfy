/**
 * The computational helpers of utils.py: personalised tax-saving tips
 * (get_tax_saving_tips) and the simple one-argument advance-tax schedule
 * (calculate_advance_tax_schedule(total_tax)), which app.py shadows with its
 * own two-argument version.
 */
module Utils {
  import opened TaxConfig
  import opened CapitalGains
  import AdvanceTax

  /** The deduction section a tip is about. */
  datatype TipKind = Section80C | Section80D | Nps

  /** A tip: the section and the amount that can still be claimed under it. */
  datatype Tip = Tip(kind: TipKind, remaining: real)

  /** One entry of the simple schedule: due-date label, cumulative-percentage label, amount. */
  datatype SimpleInstallment = SimpleInstallment(dueDate: string, percentage: string, amount: real)

  /** The amount claimed under a deduction key, a missing key counting as 0 (`.get(key, 0)`). */
  function Claimed(deductions: map<string, real>, key: string): real {
    if key in deductions then deductions[key] else 0.0
  }

  /** The 80D cap: higher for senior citizens (60 and over). */
  function Cap80D(age: int): real {
    if age >= 60 then Limit80DSenior else Limit80DNormal
  }

  /** A tip for `kind` when the claim is below the cap, none otherwise. */
  function TipIfBelow(kind: TipKind, cap: real, claimed: real): (tips: seq<Tip>)
    ensures |tips| <= 1
    ensures |tips| == 1 <==> claimed < cap
    ensures |tips| == 1 ==> tips[0].kind == kind && tips[0].remaining == cap - claimed > 0.0
  {
    if claimed < cap then [Tip(kind, cap - claimed)] else []
  }

  /** Reference definition of the tip list: 80C, then 80D, then NPS, each against its configured cap. */
  function SavingTips(age: int, deductions: map<string, real>): seq<Tip> {
    TipIfBelow(Section80C, Limit80C, Claimed(deductions, "80C"))
    + TipIfBelow(Section80D, Cap80D(age), Claimed(deductions, "80D"))
    + TipIfBelow(Nps, Limit80CCD, Claimed(deductions, "80CCD"))
  }

  /**
   * get_tax_saving_tips: appends one tip per section whose claim is below
   * its cap.  The `income` argument is accepted and never used.
   */
  method GetTaxSavingTips(income: real, age: int, currentDeductions: map<string, real>) returns (tips: seq<Tip>)
    ensures tips == SavingTips(age, currentDeductions)
  {
    tips := [];

    var max80c := 150000.0;
    var max80d := if age >= 60 then 50000.0 else 25000.0;
    var maxNps := 50000.0;

    if Claimed(currentDeductions, "80C") < max80c {
      var remaining80c := max80c - Claimed(currentDeductions, "80C");
      tips := tips + [Tip(Section80C, remaining80c)];
    }

    if Claimed(currentDeductions, "80D") < max80d {
      var remaining80d := max80d - Claimed(currentDeductions, "80D");
      tips := tips + [Tip(Section80D, remaining80d)];
    }

    if Claimed(currentDeductions, "80CCD") < maxNps {
      var remainingNps := maxNps - Claimed(currentDeductions, "80CCD");
      tips := tips + [Tip(Nps, remainingNps)];
    }
  }

  /** The position of a section in the tip list. */
  function Rank(kind: TipKind): nat {
    match kind
    case Section80C => 0
    case Section80D => 1
    case Nps => 2
  }

  /** The cap and the claim that decide the tip for `kind`. */
  function CapFor(age: int, kind: TipKind): real {
    match kind
    case Section80C => Limit80C
    case Section80D => Cap80D(age)
    case Nps => Limit80CCD
  }

  function KeyFor(kind: TipKind): string {
    match kind
    case Section80C => "80C"
    case Section80D => "80D"
    case Nps => "80CCD"
  }

  /** At most three tips, in the order 80C, 80D, NPS, so never two tips for one section. */
  lemma TipsOrdered(age: int, deductions: map<string, real>)
    ensures |SavingTips(age, deductions)| <= 3
    ensures forall i, j :: 0 <= i < j < |SavingTips(age, deductions)| ==>
      Rank(SavingTips(age, deductions)[i].kind) < Rank(SavingTips(age, deductions)[j].kind)
  {
  }

  /**
   * A tip for a section is present exactly when the claim (missing key: 0) is
   * below the cap, and it offers the cap minus the claim, a positive amount.
   */
  lemma {:induction false} TipPresentIffBelowCap(age: int, deductions: map<string, real>, kind: TipKind)
    ensures (exists i :: 0 <= i < |SavingTips(age, deductions)| && SavingTips(age, deductions)[i].kind == kind)
        <==> Claimed(deductions, KeyFor(kind)) < CapFor(age, kind)
    ensures forall i :: 0 <= i < |SavingTips(age, deductions)| && SavingTips(age, deductions)[i].kind == kind ==>
      SavingTips(age, deductions)[i].remaining == CapFor(age, kind) - Claimed(deductions, KeyFor(kind)) > 0.0
  {
    var a := TipIfBelow(Section80C, Limit80C, Claimed(deductions, "80C"));
    var b := TipIfBelow(Section80D, Cap80D(age), Claimed(deductions, "80D"));
    var c := TipIfBelow(Nps, Limit80CCD, Claimed(deductions, "80CCD"));
    var t := SavingTips(age, deductions);
    assert t == a + b + c;
    forall i | 0 <= i < |t|
      ensures t[i] in a || t[i] in b || t[i] in c
    {
      if i < |a| { assert t[i] == a[i]; }
      else if i < |a| + |b| { assert t[i] == b[i - |a|]; }
      else { assert t[i] == c[i - |a| - |b|]; }
    }
    var own := match kind case Section80C => a case Section80D => b case Nps => c;
    if Claimed(deductions, KeyFor(kind)) < CapFor(age, kind) {
      assert |own| == 1 && own[0] in t;
      var i :| 0 <= i < |t| && t[i] == own[0];
      assert t[i].kind == kind;
    }
  }

  /** With no deductions claimed, all three tips appear at their full caps. */
  lemma EmptyDeductionsYieldAllTips(age: int)
    ensures SavingTips(age, map[]) == [Tip(Section80C, 150000.0), Tip(Section80D, Cap80D(age)), Tip(Nps, 50000.0)]
  {
  }

  /** The 80D cap is 50000 from age 60 and 25000 below it. */
  lemma Cap80DByAge(age: int)
    ensures Cap80D(age) == if age >= 60 then 50000.0 else 25000.0
  {
  }

  // ---------------------------------------------------------------------
  // The simple cumulative schedule
  // ---------------------------------------------------------------------

  function SimpleSchedule(totalTax: real): seq<SimpleInstallment> {
    [SimpleInstallment("June 15, 2024", "15%", totalTax * 0.15),
     SimpleInstallment("September 15, 2024", "45%", totalTax * 0.45),
     SimpleInstallment("December 15, 2024", "75%", totalTax * 0.75),
     SimpleInstallment("March 15, 2025", "100%", totalTax)]
  }

  /** Four entries whose amounts are the cumulative calendar percentages of the total; the last is the total. */
  lemma SimpleScheduleFollowsCalendar(totalTax: real)
    ensures |SimpleSchedule(totalTax)| == |AdvanceTaxDates| == 4
    ensures forall i :: 0 <= i < 4 ==>
      SimpleSchedule(totalTax)[i].amount == totalTax * (AdvanceTaxDates[i].percentage as real) / 100.0
    ensures SimpleSchedule(totalTax)[3].amount == totalTax
  {
  }

  /** For a non-negative total the cumulative amounts never decrease and stay within the total. */
  lemma SimpleScheduleNonDecreasing(totalTax: real)
    requires totalTax >= 0.0
    ensures forall i, j :: 0 <= i <= j < 4 ==>
      0.0 <= SimpleSchedule(totalTax)[i].amount <= SimpleSchedule(totalTax)[j].amount <= totalTax
  {
  }

  /**
   * The simple schedule is cumulative: the differences of consecutive
   * amounts are the regular parts of app.py's schedule whenever there is no
   * capital-gains tax.
   */
  lemma SimpleScheduleDifferencesMatchApp(totalTax: real, cgTaxByQuarter: map<Quarter, real>)
    requires Sum(cgTaxByQuarter) == 0.0
    ensures var simple, app := SimpleSchedule(totalTax), AdvanceTax.Schedule(totalTax, cgTaxByQuarter);
      && simple[0].amount == app[0].regularTax
      && forall i :: 1 <= i < 4 ==> simple[i].amount - simple[i - 1].amount == app[i].regularTax
  {
  }
}
