/** The tax engine and contribution sizing of finlib.py: 2024 federal
    ordinary-income brackets with the standard deduction, FICA, the
    capital-gains rate lookup, and the future value of an ordinary annuity
    with its inverse. */
module Finlib {
  import opened Common
  import opened Powers

  // ---------------------------------------------------------------------------
  // Filing statuses
  // ---------------------------------------------------------------------------

  datatype FilingStatus = Single | MarriedJoint | MarriedSeparate | HeadHousehold

  /** The dictionary key under which the tables file a status. */
  function StatusKey(s: FilingStatus): string
  {
    match s
    case Single => "single"
    case MarriedJoint => "married_joint"
    case MarriedSeparate => "married_separate"
    case HeadHousehold => "head_household"
  }

  const StatusKeys: set<string> := {"single", "married_joint", "married_separate", "head_household"}

  /** The membership test `filing_status in brackets`: a key outside the four
      is rejected, never defaulted. */
  function ParseStatus(key: string): (r: Result<FilingStatus>)
    ensures r.Ok? <==> key in StatusKeys
    ensures r.Ok? ==> StatusKey(r.value) == key
    ensures r.Err? ==> r.error == InvalidFilingStatus
  {
    if key == "single" then Ok(Single)
    else if key == "married_joint" then Ok(MarriedJoint)
    else if key == "married_separate" then Ok(MarriedSeparate)
    else if key == "head_household" then Ok(HeadHousehold)
    else Err(InvalidFilingStatus)
  }

  // ---------------------------------------------------------------------------
  // Bracket tables
  // ---------------------------------------------------------------------------

  /** A bracket's upper edge; `Unbounded` is the `float('inf')` sentinel. */
  datatype Bound = Finite(amount: real) | Unbounded

  /** Python's `x <= bound`, where an infinite bound admits every x. */
  predicate AtMost(x: real, b: Bound)
  {
    b.Unbounded? || x <= b.amount
  }

  datatype Bracket = Bracket(upper: Bound, rate: real)

  /** The highest marginal rate of any table. */
  const TopRate: real := 0.37

  function OrdinaryBrackets(s: FilingStatus): seq<Bracket>
  {
    match s
    case Single =>
      [Bracket(Finite(11600.0), 0.10), Bracket(Finite(47150.0), 0.12),
       Bracket(Finite(100525.0), 0.22), Bracket(Finite(191950.0), 0.24),
       Bracket(Finite(243725.0), 0.32), Bracket(Finite(609350.0), 0.35),
       Bracket(Unbounded, 0.37)]
    case MarriedJoint =>
      [Bracket(Finite(23200.0), 0.10), Bracket(Finite(94300.0), 0.12),
       Bracket(Finite(201050.0), 0.22), Bracket(Finite(383900.0), 0.24),
       Bracket(Finite(487450.0), 0.32), Bracket(Finite(731200.0), 0.35),
       Bracket(Unbounded, 0.37)]
    case MarriedSeparate =>
      [Bracket(Finite(11600.0), 0.10), Bracket(Finite(47150.0), 0.12),
       Bracket(Finite(100525.0), 0.22), Bracket(Finite(191950.0), 0.24),
       Bracket(Finite(243725.0), 0.32), Bracket(Finite(365600.0), 0.35),
       Bracket(Unbounded, 0.37)]
    case HeadHousehold =>
      [Bracket(Finite(16550.0), 0.10), Bracket(Finite(63100.0), 0.12),
       Bracket(Finite(100500.0), 0.22), Bracket(Finite(191950.0), 0.24),
       Bracket(Finite(243700.0), 0.32), Bracket(Finite(609350.0), 0.35),
       Bracket(Unbounded, 0.37)]
  }

  function StandardDeduction(s: FilingStatus): real
  {
    match s
    case Single => 14600.0
    case MarriedJoint => 29200.0
    case MarriedSeparate => 14600.0
    case HeadHousehold => 21900.0
  }

  function CapitalGainsBrackets(s: FilingStatus): seq<Bracket>
  {
    match s
    case Single =>
      [Bracket(Finite(44625.0), 0.0), Bracket(Finite(492300.0), 0.15), Bracket(Unbounded, 0.20)]
    case MarriedJoint =>
      [Bracket(Finite(89250.0), 0.0), Bracket(Finite(553850.0), 0.15), Bracket(Unbounded, 0.20)]
    case MarriedSeparate =>
      [Bracket(Finite(44625.0), 0.0), Bracket(Finite(276900.0), 0.15), Bracket(Unbounded, 0.20)]
    case HeadHousehold =>
      [Bracket(Finite(59750.0), 0.0), Bracket(Finite(523050.0), 0.15), Bracket(Unbounded, 0.20)]
  }

  /** Where bracket k starts: 0 for the first, else the previous upper edge. */
  function Lower(t: seq<Bracket>, k: nat): real
    requires k < |t| && (k > 0 ==> t[k - 1].upper.Finite?)
  {
    if k == 0 then 0.0 else t[k - 1].upper.amount
  }

  /** A table the bracket walk can use: finite, non-decreasing edges from 0,
      a last bracket without an upper edge, and rates in [0, TopRate]. */
  predicate WellFormed(t: seq<Bracket>)
  {
    && |t| >= 1
    && t[|t| - 1].upper.Unbounded?
    && (forall k :: 0 <= k < |t| - 1 ==> t[k].upper.Finite? && 0.0 <= t[k].upper.amount)
    && (forall j, k :: 0 <= j < k < |t| - 1 ==> t[j].upper.amount <= t[k].upper.amount)
    && (forall k :: 0 <= k < |t| ==> 0.0 <= t[k].rate <= TopRate)
  }

  /** WellFormed with the ordering of the edges checked only between
      neighbouring brackets, which is cheap to confirm on a literal table. */
  predicate NeighboursAscend(t: seq<Bracket>)
  {
    && |t| >= 1
    && t[|t| - 1].upper.Unbounded?
    && (forall k :: 0 <= k < |t| - 1 ==> t[k].upper.Finite? && 0.0 <= t[k].upper.amount)
    && (forall k :: 0 <= k < |t| - 2 ==> t[k].upper.amount <= t[k + 1].upper.amount)
    && (forall k :: 0 <= k < |t| ==> 0.0 <= t[k].rate <= TopRate)
  }

  lemma {:induction false} NeighboursAscendChain(t: seq<Bracket>, j: nat, k: nat)
    requires NeighboursAscend(t) && j <= k < |t| - 1
    ensures t[j].upper.amount <= t[k].upper.amount
    decreases k - j
  {
    if j < k {
      NeighboursAscendChain(t, j + 1, k);
    }
  }

  lemma NeighboursAscendWellFormed(t: seq<Bracket>)
    requires NeighboursAscend(t)
    ensures WellFormed(t)
  {
    forall j, k | 0 <= j < k < |t| - 1
      ensures t[j].upper.amount <= t[k].upper.amount
    {
      NeighboursAscendChain(t, j, k);
    }
  }

  /** Every table of the engine is well formed. */
  lemma TablesWellFormed(s: FilingStatus)
    ensures WellFormed(OrdinaryBrackets(s))
    ensures WellFormed(CapitalGainsBrackets(s))
  {
    OrdinaryWellFormed(s);
    CapitalGainsWellFormed(s);
  }

  lemma OrdinaryWellFormed(s: FilingStatus)
    ensures WellFormed(OrdinaryBrackets(s))
  {
    var t := OrdinaryBrackets(s);
    assert NeighboursAscend(t) by {
      assert forall k :: 0 <= k < |t| - 2 ==> t[k].upper.amount <= t[k + 1].upper.amount;
    }
    NeighboursAscendWellFormed(t);
  }

  lemma CapitalGainsWellFormed(s: FilingStatus)
    ensures WellFormed(CapitalGainsBrackets(s))
  {
    NeighboursAscendWellFormed(CapitalGainsBrackets(s));
  }

  // ---------------------------------------------------------------------------
  // Ordinary income tax: closed-form specification of the bracket walk
  // ---------------------------------------------------------------------------

  /** The length of [lo, hi] ∩ [0, taxable], for 0 <= lo <= hi. */
  function Overlap(taxable: real, lo: real, hi: Bound): real
  {
    if taxable <= lo then 0.0
    else match hi
      case Unbounded => taxable - lo
      case Finite(h) => Min(taxable, h) - lo
  }

  /** The tax bracket k levies on `taxable`: its rate times the part of the
      income that falls inside it. */
  function Share(taxable: real, t: seq<Bracket>, k: nat): real
    requires WellFormed(t) && k < |t|
  {
    Levy(Overlap(taxable, Lower(t, k), t[k].upper), t[k].rate)
  }

  /** The tax on an amount at a flat rate: `tax_in_bracket`. */
  function Levy(amount: real, rate: real): real
  {
    amount * rate
  }

  /** A levy at a rate in [0, TopRate] on a non-negative amount is between
      nothing and the top rate's levy. */
  lemma LevyBounds(amount: real, rate: real)
    requires 0.0 <= amount && 0.0 <= rate <= TopRate
    ensures 0.0 <= Levy(amount, rate) <= TopRate * amount
  {
    MulNonNegative(amount, rate);
    MulMonotoneLeft(amount, rate, TopRate);
  }

  /** A levy at a non-negative rate grows with the amount. */
  lemma LevyMonotone(a: real, b: real, rate: real)
    requires a <= b && 0.0 <= rate
    ensures Levy(a, rate) <= Levy(b, rate)
  {
    MulMonotoneLeft(rate, a, b);
  }

  /** The tax owed on the first n brackets. */
  function TaxUpTo(taxable: real, t: seq<Bracket>, n: nat): real
    requires WellFormed(t) && n <= |t|
  {
    if n == 0 then 0.0 else TaxUpTo(taxable, t, n - 1) + Share(taxable, t, n - 1)
  }

  /** The tax owed on `taxable` under table t, summed over every bracket. */
  function BracketTax(taxable: real, t: seq<Bracket>): real
    requires WellFormed(t)
  {
    TaxUpTo(taxable, t, |t|)
  }

  /** How much of [0, taxable] the first n brackets cover. */
  function Covered(taxable: real, t: seq<Bracket>, n: nat): real
    requires WellFormed(t) && n <= |t|
  {
    if n == 0 then 0.0
    else match t[n - 1].upper
      case Unbounded => taxable
      case Finite(h) => Min(taxable, h)
  }

  /** Bracket k covers exactly the part of [0, taxable] that the brackets
      below it leave, and all brackets together cover all of it. */
  lemma CoveredStep(taxable: real, t: seq<Bracket>, k: nat)
    requires WellFormed(t) && k < |t| && taxable >= 0.0
    ensures 0.0 <= Overlap(taxable, Lower(t, k), t[k].upper)
    ensures Covered(taxable, t, k + 1) == Covered(taxable, t, k) + Overlap(taxable, Lower(t, k), t[k].upper)
    ensures Covered(taxable, t, |t|) == taxable
  {
    if k > 0 {
      assert Covered(taxable, t, k) == Min(taxable, Lower(t, k));
    }
  }

  /** A bracket's tax is between nothing and the top rate on its slice. */
  lemma ShareBounds(taxable: real, t: seq<Bracket>, k: nat)
    requires WellFormed(t) && k < |t| && 0.0 <= Overlap(taxable, Lower(t, k), t[k].upper)
    ensures 0.0 <= Share(taxable, t, k) <= TopRate * Overlap(taxable, Lower(t, k), t[k].upper)
  {
    LevyBounds(Overlap(taxable, Lower(t, k), t[k].upper), t[k].rate);
  }

  /** A bracket's tax does not decrease as income grows. */
  lemma ShareMonotone(a: real, b: real, t: seq<Bracket>, k: nat)
    requires WellFormed(t) && k < |t| && a <= b
    ensures Share(a, t, k) <= Share(b, t, k)
  {
    assert Overlap(a, Lower(t, k), t[k].upper) <= Overlap(b, Lower(t, k), t[k].upper);
    LevyMonotone(Overlap(a, Lower(t, k), t[k].upper), Overlap(b, Lower(t, k), t[k].upper), t[k].rate);
  }

  /** The tax on the first n brackets is between 0 and TopRate times the
      income those brackets cover. */
  lemma {:induction false} TaxUpToBounds(taxable: real, t: seq<Bracket>, n: nat)
    requires WellFormed(t) && n <= |t| && taxable >= 0.0
    ensures 0.0 <= TaxUpTo(taxable, t, n) <= TopRate * Covered(taxable, t, n)
  {
    if n > 0 {
      TaxUpToBounds(taxable, t, n - 1);
      CoveredStep(taxable, t, n - 1);
      ShareBounds(taxable, t, n - 1);
    }
  }

  /** The tax on the first n brackets does not decrease as income grows. */
  lemma {:induction false} TaxUpToMonotone(a: real, b: real, t: seq<Bracket>, n: nat)
    requires WellFormed(t) && n <= |t| && a <= b
    ensures TaxUpTo(a, t, n) <= TaxUpTo(b, t, n)
  {
    if n > 0 {
      TaxUpToMonotone(a, b, t, n - 1);
      ShareMonotone(a, b, t, n - 1);
    }
  }

  /** Once taxable income fits under bracket k's edge, the brackets above k
      add nothing: the walk's early exit does not change its total. */
  lemma {:induction false} TaxAboveVanishes(taxable: real, t: seq<Bracket>, k: nat, n: nat)
    requires WellFormed(t) && k < n <= |t| && AtMost(taxable, t[k].upper)
    ensures TaxUpTo(taxable, t, n) == TaxUpTo(taxable, t, k + 1)
  {
    if n > k + 1 {
      TaxAboveVanishes(taxable, t, k, n - 1);
      assert Overlap(taxable, Lower(t, n - 1), t[n - 1].upper) == 0.0;
      assert Levy(0.0, t[n - 1].rate) == 0.0;
    }
  }

  /** The edge the walk has passed before bracket k: 0 before the first. */
  function PreviousEdge(t: seq<Bracket>, k: nat): Bound
    requires k <= |t|
  {
    if k == 0 then Finite(0.0) else t[k - 1].upper
  }

  /** `min(taxable - previous, bracket_max - previous)`, where an infinite
      bracket_max leaves the first operand. */
  function Slice(taxable: real, previous: real, upper: Bound): real
  {
    match upper
    case Unbounded => taxable - previous
    case Finite(edge) => Min(taxable - previous, edge - previous)
  }

  /** Taxing bracket k's slice of the income above the previous edge extends
      the tax on the brackets below it to the tax on the first k + 1. */
  lemma SliceStep(taxable: real, t: seq<Bracket>, k: nat, slice: real, total: real)
    requires WellFormed(t) && k < |t| && !AtMost(taxable, PreviousEdge(t, k))
    requires slice == Slice(taxable, PreviousEdge(t, k).amount, t[k].upper)
    requires total == TaxUpTo(taxable, t, k)
    ensures total + Levy(slice, t[k].rate) == TaxUpTo(taxable, t, k + 1)
  {
    SliceIsOverlap(taxable, t, k, slice);
  }

  lemma SliceIsOverlap(taxable: real, t: seq<Bracket>, k: nat, slice: real)
    requires WellFormed(t) && k < |t| && !AtMost(taxable, PreviousEdge(t, k))
    requires slice == Slice(taxable, PreviousEdge(t, k).amount, t[k].upper)
    ensures slice == Overlap(taxable, Lower(t, k), t[k].upper)
  {
  }

  /** Income at or below the previous edge owes nothing in bracket k. */
  lemma NoSliceStep(taxable: real, t: seq<Bracket>, k: nat)
    requires WellFormed(t) && k < |t| && AtMost(taxable, PreviousEdge(t, k))
    ensures TaxUpTo(taxable, t, k + 1) == TaxUpTo(taxable, t, k)
  {
    assert Levy(0.0, t[k].rate) == 0.0;
  }

  /** Income within bracket k's edge owes nothing above it. */
  lemma WalkExit(taxable: real, t: seq<Bracket>, k: nat, total: real)
    requires WellFormed(t) && k < |t| && AtMost(taxable, t[k].upper)
    requires total == TaxUpTo(taxable, t, k + 1)
    ensures total == BracketTax(taxable, t)
  {
    TaxAboveVanishes(taxable, t, k, |t|);
  }

  /** The bracket walk: for each bracket in ascending order, tax the part of
      taxable income above the previous edge and below this one, and stop
      at the first bracket whose edge the income does not pass. */
  method WalkBrackets(taxable: real, brackets: seq<Bracket>) returns (totalTax: real)
    requires WellFormed(brackets)
    ensures totalTax == BracketTax(taxable, brackets)
  {
    totalTax := 0.0;
    var previous := Finite(0.0);
    var k := 0;
    while k < |brackets|
      invariant k <= |brackets|
      invariant previous == PreviousEdge(brackets, k)
      invariant totalTax == TaxUpTo(taxable, brackets, k)
    {
      var bracket := brackets[k];
      if !AtMost(taxable, previous) {
        var inBracket := Slice(taxable, previous.amount, bracket.upper);
        SliceStep(taxable, brackets, k, inBracket, totalTax);
        totalTax := totalTax + Levy(inBracket, bracket.rate);
        if AtMost(taxable, bracket.upper) {
          WalkExit(taxable, brackets, k, totalTax);
          break;
        }
      } else {
        NoSliceStep(taxable, brackets, k);
      }
      previous := bracket.upper;
      k := k + 1;
    }
  }

  // ---------------------------------------------------------------------------
  // FICA
  // ---------------------------------------------------------------------------

  const SocialSecurityWageBase: real := 168600.0
  const SocialSecurityRate: real := 0.062
  const MedicareRate: real := 0.0145
  const AdditionalMedicareRate: real := 0.009
  /** The three FICA rates together bound the FICA share of any income. */
  const FicaRateCeiling: real := SocialSecurityRate + MedicareRate + AdditionalMedicareRate

  function AdditionalMedicareThreshold(s: FilingStatus): real
  {
    match s
    case Single => 200000.0
    case MarriedJoint => 250000.0
    case MarriedSeparate => 125000.0
    case HeadHousehold => 200000.0
  }

  /** Social Security tax on wages up to the wage base, whatever the income. */
  function SocialSecurityTax(income: real): (t: real)
    ensures t <= SocialSecurityWageBase * SocialSecurityRate
    ensures income >= 0.0 ==> 0.0 <= t <= SocialSecurityRate * income
  {
    Min(income, SocialSecurityWageBase) * SocialSecurityRate
  }

  /** The extra Medicare tax: zero at or below the status threshold, and
      positive exactly above it. */
  function AdditionalMedicareTax(income: real, s: FilingStatus): (t: real)
    ensures t >= 0.0
    ensures t > 0.0 <==> income > AdditionalMedicareThreshold(s)
    ensures income >= 0.0 ==> t <= AdditionalMedicareRate * income
  {
    if income > AdditionalMedicareThreshold(s) then
      (income - AdditionalMedicareThreshold(s)) * AdditionalMedicareRate
    else
      0.0
  }

  /** Total FICA: Social Security, Medicare and the additional Medicare tax. */
  function Fica(income: real, s: FilingStatus): (t: real)
    ensures income >= 0.0 ==> 0.0 <= t <= FicaRateCeiling * income
  {
    SocialSecurityTax(income) + income * MedicareRate + AdditionalMedicareTax(income, s)
  }

  /** `calculate_fica`: the Social Security and Medicare parts, plus the
      extra Medicare tax added only above the status threshold. An unknown
      status fails at the threshold lookup. */
  method CalculateFica(income: real, filingStatus: string := "single") returns (r: Result<real>)
    ensures r.Err? <==> filingStatus !in StatusKeys
    ensures r.Err? ==> r.error == InvalidFilingStatus
    ensures r.Ok? ==> r.value == Fica(income, ParseStatus(filingStatus).value)
  {
    var s :- ParseStatus(filingStatus);
    var ssTax := Min(income, SocialSecurityWageBase) * SocialSecurityRate;
    var medicareTax := income * MedicareRate;
    var addlMedicare := 0.0;
    if income > AdditionalMedicareThreshold(s) {
      addlMedicare := (income - AdditionalMedicareThreshold(s)) * AdditionalMedicareRate;
    }
    r := Ok(ssTax + medicareTax + addlMedicare);
  }

  /** FICA never decreases as income grows. */
  lemma FicaMonotone(a: real, b: real, s: FilingStatus)
    requires a <= b
    ensures Fica(a, s) <= Fica(b, s)
  {
    assert SocialSecurityTax(a) <= SocialSecurityTax(b);
    assert AdditionalMedicareTax(a, s) <= AdditionalMedicareTax(b, s);
  }

  // ---------------------------------------------------------------------------
  // Post-tax income
  // ---------------------------------------------------------------------------

  /** Income left after the standard deduction, floored at zero. */
  function TaxableIncome(income: real, s: FilingStatus): (t: real)
    ensures t >= 0.0 && t >= income - StandardDeduction(s)
    ensures t == 0.0 || t == income - StandardDeduction(s)
  {
    Max(0.0, income - StandardDeduction(s))
  }

  /** Federal income tax: the bracket sum on the taxable income. */
  function IncomeTax(income: real, s: FilingStatus): real
  {
    TablesWellFormed(s);
    BracketTax(TaxableIncome(income, s), OrdinaryBrackets(s))
  }

  /** Income tax is at least 0, at most TopRate of taxable income, and
      non-decreasing in income. */
  lemma IncomeTaxBounds(income: real, s: FilingStatus)
    ensures 0.0 <= IncomeTax(income, s) <= TopRate * TaxableIncome(income, s)
  {
    TablesWellFormed(s);
    var t := OrdinaryBrackets(s);
    TaxUpToBounds(TaxableIncome(income, s), t, |t|);
    CoveredStep(TaxableIncome(income, s), t, |t| - 1);
  }

  lemma IncomeTaxMonotone(a: real, b: real, s: FilingStatus)
    requires a <= b
    ensures IncomeTax(a, s) <= IncomeTax(b, s)
  {
    TablesWellFormed(s);
    var t := OrdinaryBrackets(s);
    TaxUpToMonotone(TaxableIncome(a, s), TaxableIncome(b, s), t, |t|);
  }

  /** Post-tax income and the effective tax rate (income tax plus FICA over
      gross income). */
  datatype PostTax = PostTax(net: real, rate: real)

  /** Net income and effective rate once `owed` (income tax plus FICA) is
      paid: the rate is `owed / income`, or 0 when income is not positive. */
  function Settle(income: real, owed: real): (p: PostTax)
    requires income >= 0.0 ==> 0.0 <= owed
    requires income > 0.0 ==> owed < income
    ensures 0.0 <= p.rate < 1.0
    ensures p.net == income - owed
    ensures income > 0.0 ==> p.rate == owed / income
    ensures income > 0.0 ==> p.net == income * (1.0 - p.rate)
    ensures income >= 0.0 ==> p.net <= income
    ensures income <= 0.0 ==> p.rate == 0.0
  {
    if income > 0.0 then
      DivBelowOne(owed, income);
      assert income * (owed / income) == owed;
      PostTax(income - owed, owed / income)
    else
      PostTax(income - owed, 0.0)
  }

  /** The post-tax figures for a known status. The effective rate lies in
      [0, 1) for every income, which is what keeps the `1 - rate` divisors of
      the account analysers non-zero. */
  function Taxes(income: real, s: FilingStatus): (p: PostTax)
    ensures 0.0 <= p.rate < 1.0
    ensures p.net == income - IncomeTax(income, s) - Fica(income, s)
    ensures income >= 0.0 ==> p.net <= income
    ensures income <= 0.0 ==> p.rate == 0.0
    ensures income > 0.0 ==> p.rate == (IncomeTax(income, s) + Fica(income, s)) / income
  {
    var owed := IncomeTax(income, s) + Fica(income, s);
    IncomeTaxBounds(income, s);
    OwedBelowIncome(income, IncomeTax(income, s), Fica(income, s), TaxableIncome(income, s));
    Settle(income, owed)
  }

  /** Income tax and FICA together stay below a positive income: at most
      37% of the taxable part plus 8.55% of the whole. */
  lemma OwedBelowIncome(income: real, tax: real, fica: real, taxable: real)
    requires income > 0.0 ==> 0.0 <= taxable <= income
    requires 0.0 <= tax <= TopRate * taxable
    requires income >= 0.0 ==> 0.0 <= fica <= FicaRateCeiling * income
    ensures income >= 0.0 ==> 0.0 <= tax + fica
    ensures income > 0.0 ==> tax + fica < income
  {
    if income > 0.0 {
      assert TopRate * taxable <= TopRate * income;
    }
  }

  /** `calculate_post_tax_income`'s result as a function of its inputs. */
  function PostTaxIncome(income: real, filingStatus: string): (r: Result<PostTax>)
    ensures r.Err? <==> filingStatus !in StatusKeys
    ensures r.Err? ==> r.error == InvalidFilingStatus
    ensures r.Ok? ==> 0.0 <= r.value.rate < 1.0
  {
    var s :- ParseStatus(filingStatus);
    Ok(Taxes(income, s))
  }

  /** Post-tax income: the bracket walk on the deduction-floored income, plus
      FICA; net is income less both taxes, the rate is both taxes over
      income, or 0 when income is not positive. */
  method CalculatePostTaxIncome(income: real, filingStatus: string := "single") returns (r: Result<PostTax>)
    ensures r == PostTaxIncome(income, filingStatus)
  {
    var s :- ParseStatus(filingStatus);
    TablesWellFormed(s);
    var taxableIncome := Max(0.0, income - StandardDeduction(s));
    var totalTax := WalkBrackets(taxableIncome, OrdinaryBrackets(s));
    var ficaTax := Fica(income, s);
    var postTaxIncome := income - totalTax - ficaTax;
    var effectiveTaxRate := if income > 0.0 then (totalTax + ficaTax) / income else 0.0;
    r := Ok(PostTax(postTaxIncome, effectiveTaxRate));
  }

  /** Zero income owes nothing and has a zero rate, for every status. */
  lemma ZeroIncomeUntaxed(filingStatus: string)
    requires filingStatus in StatusKeys
    ensures PostTaxIncome(0.0, filingStatus) == Ok(PostTax(0.0, 0.0))
  {
    var s := ParseStatus(filingStatus).value;
    IncomeTaxBounds(0.0, s);
  }

  /** For non-negative income, income tax and FICA are non-negative and do
      not decrease as income grows. */
  lemma TaxesMonotone(a: real, b: real, s: FilingStatus)
    requires 0.0 <= a <= b
    ensures 0.0 <= IncomeTax(a, s) <= IncomeTax(b, s)
    ensures 0.0 <= Fica(a, s) <= Fica(b, s)
  {
    IncomeTaxBounds(a, s);
    IncomeTaxMonotone(a, b, s);
    FicaMonotone(a, b, s);
  }

  // ---------------------------------------------------------------------------
  // Capital gains
  // ---------------------------------------------------------------------------

  /** The index of the first bracket at or after `from` whose threshold is at
      least `total`, or |t| when there is none. */
  function FirstApplicable(total: real, t: seq<Bracket>, from: nat): (k: nat)
    requires from <= |t|
    ensures from <= k <= |t|
    ensures k < |t| ==> AtMost(total, t[k].upper)
    ensures forall j :: from <= j < k ==> !AtMost(total, t[j].upper)
    decreases |t| - from
  {
    if from == |t| then |t|
    else if AtMost(total, t[from].upper) then from
    else FirstApplicable(total, t, from + 1)
  }

  /** The rate of the first threshold at or above `total`, falling back to
      the last bracket's rate when none is. */
  function CapitalGainsRate(total: real, t: seq<Bracket>): real
    requires |t| >= 1
  {
    var k := FirstApplicable(total, t, 0);
    if k < |t| then t[k].rate else t[|t| - 1].rate
  }

  /** `calculate_capital_gains_tax`'s result: the whole gain at the single
      rate of the first threshold at or above regular income plus gain. */
  function CapitalGainsTax(gainAmount: real, regularIncome: real, filingStatus: string): (r: Result<real>)
    ensures r.Err? <==> filingStatus !in StatusKeys
    ensures r.Err? ==> r.error == InvalidFilingStatus
    ensures r.Ok? ==>
      var t := CapitalGainsBrackets(ParseStatus(filingStatus).value);
      exists k :: 0 <= k < |t| && AtMost(regularIncome + gainAmount, t[k].upper)
        && (forall j :: 0 <= j < k ==> !AtMost(regularIncome + gainAmount, t[j].upper))
        && r.value == Levy(gainAmount, t[k].rate)
  {
    var s :- ParseStatus(filingStatus);
    var t := CapitalGainsBrackets(s);
    CapitalGainsWellFormed(s);
    FirstApplicableFound(regularIncome + gainAmount, t);
    Ok(Levy(gainAmount, CapitalGainsRate(regularIncome + gainAmount, t)))
  }

  /** On a well-formed table the search always finds a threshold, since the
      last one is infinite: the top-rate fallback after the loop is never
      reached. */
  lemma FirstApplicableFound(total: real, t: seq<Bracket>)
    requires WellFormed(t)
    ensures FirstApplicable(total, t, 0) < |t|
  {
    assert AtMost(total, t[|t| - 1].upper);
  }

  /** A single filer whose regular income plus gain is at most 44625 owes no
      capital-gains tax; above 492300 the whole gain is taxed at 20%. */
  lemma SingleCapitalGainsRates(gainAmount: real, regularIncome: real)
    ensures regularIncome + gainAmount <= 44625.0 ==> CapitalGainsTax(gainAmount, regularIncome, "single") == Ok(0.0)
    ensures regularIncome + gainAmount > 492300.0 ==> CapitalGainsTax(gainAmount, regularIncome, "single") == Ok(gainAmount * 0.20)
  {
  }

  /** The capital-gains lookup: scan the thresholds in order and tax the whole
      gain at the rate of the first one the total does not exceed. */
  method CalculateCapitalGainsTax(gainAmount: real, regularIncome: real, filingStatus: string := "single") returns (r: Result<real>)
    ensures r == CapitalGainsTax(gainAmount, regularIncome, filingStatus)
  {
    var s :- ParseStatus(filingStatus);
    var brackets := CapitalGainsBrackets(s);
    var k := 0;
    while k < |brackets|
      invariant k <= |brackets|
      invariant FirstApplicable(regularIncome + gainAmount, brackets, k) == FirstApplicable(regularIncome + gainAmount, brackets, 0)
    {
      if AtMost(regularIncome + gainAmount, brackets[k].upper) {
        assert CapitalGainsRate(regularIncome + gainAmount, brackets) == brackets[k].rate;
        return Ok(Levy(gainAmount, brackets[k].rate));
      }
      k := k + 1;
    }
    return Ok(Levy(gainAmount, brackets[|brackets| - 1].rate));
  }

  // ---------------------------------------------------------------------------
  // Annuity future value and contribution sizing
  // ---------------------------------------------------------------------------

  /** The balance that a payment of 1 at the end of each of `years` years
      grows to in an account compounding at `rate`. */
  function AnnuityFactor(rate: real, years: nat): real
  {
    if years == 0 then 0.0 else AnnuityFactor(rate, years - 1) * (1.0 + rate) + 1.0
  }

  /** The balance after `years` contributions of c, each paid at the end of a
      year into an account that compounds at `rate`. */
  function Accumulate(c: real, rate: real, years: nat): real
  {
    c * AnnuityFactor(rate, years)
  }

  /** The annuity factor in closed form: `((1+R)^T - 1)/R` times R. */
  lemma {:induction false} AnnuityClosedForm(rate: real, years: nat)
    ensures AnnuityFactor(rate, years) * rate == Pow(1.0 + rate, years) - 1.0
  {
    if years > 0 {
      AnnuityClosedForm(rate, years - 1);
      var u := AnnuityFactor(rate, years - 1);
      var p := Pow(1.0 + rate, years - 1);
      assert (u * (1.0 + rate) + 1.0) * rate == (u * rate) * (1.0 + rate) + rate;
      assert Pow(1.0 + rate, years) == (1.0 + rate) * p;
    }
  }

  lemma AccumulateClosedForm(c: real, rate: real, years: nat)
    ensures Accumulate(c, rate, years) * rate == c * (Pow(1.0 + rate, years) - 1.0)
  {
    AnnuityClosedForm(rate, years);
    MulAssociative(c, AnnuityFactor(rate, years), rate);
  }

  /** Scaling the yearly contribution scales what it accumulates to. */
  lemma AccumulateLinear(c: real, k: real, scaled: real, rate: real, years: nat)
    requires scaled == c * k
    ensures Accumulate(scaled, rate, years) == Accumulate(c, rate, years) * k
  {
    var u := AnnuityFactor(rate, years);
    MulAssociative(c, k, u);
    MulAssociative(c, u, k);
  }

  /** With a non-negative rate and at least one year, the annuity factor is
      at least 1. */
  lemma {:induction false} AnnuityAtLeastOne(rate: real, years: nat)
    requires rate >= 0.0 && years >= 1
    ensures AnnuityFactor(rate, years) >= 1.0
  {
    if years > 1 {
      AnnuityAtLeastOne(rate, years - 1);
      MulMonotoneLeft(AnnuityFactor(rate, years - 1), 1.0, 1.0 + rate);
    }
  }

  /** A larger contribution accumulates to a larger balance, and
      conversely, once the rate is non-negative and there is a year. */
  lemma AccumulateOrder(a: real, b: real, rate: real, years: nat)
    requires rate >= 0.0 && years >= 1
    ensures a > b <==> Accumulate(a, rate, years) > Accumulate(b, rate, years)
  {
    AnnuityAtLeastOne(rate, years);
    var u := AnnuityFactor(rate, years);
    if a > b {
      MulStrictRight(b, a, u);
    } else {
      MulMonotoneLeft(u, a, b);
    }
  }

  /** The future value of an ordinary annuity, `C*((1+R)^T - 1)/R`: the
      balance that T year-end contributions of C grow to. */
  function ConstantContribution(rate: real, years: nat, c: real): (r: Result<real>)
    ensures r.Err? <==> rate == 0.0
    ensures r.Err? ==> r.error == ZeroDivision
    ensures r.Ok? ==> r.value == Accumulate(c, rate, years)
  {
    if rate == 0.0 then Err(ZeroDivision)
    else
      AccumulateClosedForm(c, rate, years);
      DivCancel(Accumulate(c, rate, years), c * (Pow(1.0 + rate, years) - 1.0), rate);
      Ok(c * (Pow(1.0 + rate, years) - 1.0) / rate)
  }

  /** The level yearly contribution that accumulates to `target`: the
      annuity formula solved for the payment. A non-positive rate is
      rejected; a zero-year horizon divides by zero. */
  function RequiredConstantContribution(target: real, rate: real, years: nat): (r: Result<real>)
    ensures r.Err? <==> rate <= 0.0 || years == 0
    ensures rate <= 0.0 ==> r == Err(InvalidRate)
    ensures rate > 0.0 && years == 0 ==> r == Err(ZeroDivision)
    ensures r.Ok? ==> Accumulate(r.value, rate, years) == target
  {
    if rate <= 0.0 then Err(InvalidRate)
    else
      var growth := Pow(1.0 + rate, years) - 1.0;
      PowAboveOne(1.0 + rate, years);
      if growth == 0.0 then Err(ZeroDivision)
      else
        var c := (target * rate) / growth;
        AccumulateClosedForm(c, rate, years);
        assert Accumulate(c, rate, years) * rate == target * rate;
        Ok(c)
  }

  /** Paying the required contribution for the horizon reaches the target:
      `constant_contribution(r, n, required_constant_contribution(t, r, n)) == t`. */
  lemma ContributionRoundTrip(target: real, rate: real, years: nat)
    requires rate > 0.0 && years >= 1
    ensures RequiredConstantContribution(target, rate, years).Ok?
    ensures ConstantContribution(rate, years, RequiredConstantContribution(target, rate, years).value) == Ok(target)
  {
  }
}
