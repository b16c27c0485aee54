/** The current retirement projection engine of retirement_planner.py: the
    four goal formulas that size a retirement principal, their dispatch, the
    five account analysers and the orchestrator that runs all of them. */
module RetirementPlanner {
  import opened Common
  import opened Powers
  import Finlib

  /** Share of the desired income that savings must supply (`SP`). */
  const SP: real := 0.40
  /** Real growth a nobility principal must keep beyond inflation (`NG`). */
  const NG: real := 0.02
  /** Inflation assumed by the orchestrator (`I`). */
  const I: real := 0.03
  /** Flat capital-gains rate charged on brokerage withdrawals. */
  const BrokerageWithdrawalTaxRate: real := 0.15
  /** Below this gap between return and inflation the generational formula
      prints its warning. */
  const CloseRatesMargin: real := 0.01

  datatype FinGoal = Supplemented | Sustainable | Generational | Nobility

  /** A required principal and the advisories printed while computing it:
      `closeRates` is generational's near-equal-rates warning, `fellBack`
      nobility's warning that it fell back to generational wealth. */
  datatype Estimate = Estimate(amount: real, closeRates: bool, fellBack: bool)

  // ---------------------------------------------------------------------------
  // Reference model of the distribution phase
  // ---------------------------------------------------------------------------

  /** The balance after `years` years of retirement: each year the balance
      earns `rate`, then the year's withdrawal is taken, and the withdrawal
      grows with inflation for the next year. */
  function Drawdown(balance: real, withdrawal: real, rate: real, inflation: real, years: nat): real
    decreases years
  {
    if years == 0 then balance
    else Drawdown(balance * (1.0 + rate) - withdrawal, withdrawal * (1.0 + inflation), rate, inflation, years - 1)
  }

  // ---------------------------------------------------------------------------
  // Goal formulas
  // ---------------------------------------------------------------------------

  /** `(1 - ((1+i)/(1+r))^d) / (r - i)`: the present value of d withdrawals
      of 1 that grow with inflation, discounted at the rate of return. */
  function ComfyFactor(years: nat, rate: real, inflation: real): real
    requires 1.0 + rate != 0.0 && rate != inflation
  {
    (1.0 - Pow((1.0 + inflation) / (1.0 + rate), years)) / (rate - inflation)
  }

  /** Principal that pays `desiredIncome` (growing with inflation) for
      `years` years and is then exhausted. A return at or below inflation is
      rejected; a return of -100% divides by zero. */
  function ComfyRetirement(desiredIncome: real, years: nat, rate: real, inflation: real): (r: Result<Estimate>)
    ensures r.Err? <==> rate <= inflation || 1.0 + rate == 0.0
    ensures rate <= inflation ==> r == Err(RateOrdering)
    ensures rate > inflation && 1.0 + rate == 0.0 ==> r == Err(ZeroDivision)
    ensures r.Ok? ==> !r.value.closeRates && !r.value.fellBack
    ensures r.Ok? ==> Drawdown(r.value.amount, desiredIncome, rate, inflation, years) == 0.0
  {
    if rate <= inflation then Err(RateOrdering)
    else if 1.0 + rate == 0.0 then Err(ZeroDivision)
    else
      ComfyDepletes(desiredIncome * ComfyFactor(years, rate, inflation), desiredIncome, years, rate, inflation);
      Ok(Estimate(desiredIncome * ComfyFactor(years, rate, inflation), false, false))
  }

  /** The comfortable principal for the share SP of the desired income that
      other sources do not cover. */
  function SupplementedRetirement(desiredIncome: real, years: nat, rate: real, inflation: real): (r: Result<Estimate>)
    ensures r == ComfyRetirement(desiredIncome * SP, years, rate, inflation)
    ensures r.Ok? ==> Drawdown(r.value.amount, desiredIncome * SP, rate, inflation, years) == 0.0
  {
    ComfyRetirement(desiredIncome * SP, years, rate, inflation)
  }

  /** The perpetuity with growth, `income / (r - i)`, whose real value never
      falls; the duration is ignored. Prints a warning (the `closeRates`
      flag) when the two rates are within 0.01, without changing the value. */
  function GenerationalWealth(desiredIncome: real, years: nat, rate: real, inflation: real): (r: Result<Estimate>)
    ensures r.Err? <==> rate <= inflation
    ensures r.Err? ==> r.error == RateOrdering
    ensures r.Ok? ==> r.value.amount * (rate - inflation) == desiredIncome
    ensures r.Ok? ==> (r.value.closeRates <==> rate - inflation < CloseRatesMargin) && !r.value.fellBack
  {
    if rate <= inflation then Err(RateOrdering)
    else
      DivMulCancel(desiredIncome, rate - inflation);
      Ok(Estimate(desiredIncome / (rate - inflation), rate - inflation < CloseRatesMargin, false))
  }

  /** A principal that keeps growing by NG in real terms after withdrawals,
      `income / (r - i - NG)`. When the return does not exceed inflation
      plus NG it warns (the `fellBack` flag) and returns the generational
      principal instead, which fails only when r <= i. */
  function NobilityWealth(desiredIncome: real, years: nat, rate: real, inflation: real): (r: Result<Estimate>)
    ensures r.Err? <==> rate <= inflation
    ensures r.Err? ==> r.error == RateOrdering
    ensures r.Ok? ==> (r.value.fellBack <==> rate <= inflation + NG)
    ensures r.Ok? && r.value.fellBack ==>
      r.value == GenerationalWealth(desiredIncome, years, rate, inflation).value.(fellBack := true)
    ensures r.Ok? && !r.value.fellBack ==>
      r.value.amount * (rate - inflation - NG) == desiredIncome && !r.value.closeRates
  {
    if rate <= inflation + NG then
      var fallback :- GenerationalWealth(desiredIncome, years, rate, inflation);
      Ok(fallback.(fellBack := true))
    else
      DivMulCancel(desiredIncome, rate - inflation - NG);
      Ok(Estimate(desiredIncome / (rate - inflation - NG), false, false))
  }

  /** The rates for which a goal's formula returns a principal. */
  predicate GoalFeasible(rate: real, inflation: real, goal: FinGoal)
  {
    rate > inflation && (goal.Supplemented? || goal.Sustainable? ==> 1.0 + rate != 0.0)
  }

  /** Each goal sent to its own formula. */
  function PrincipalByGoal(futureIncome: real, retirementTime: nat, rate: real, inflation: real, goal: FinGoal): (r: Result<Estimate>)
    ensures r.Ok? <==> GoalFeasible(rate, inflation, goal)
    ensures r.Err? ==> r.error == RateOrdering || r.error == ZeroDivision
    ensures goal == Supplemented ==> r == SupplementedRetirement(futureIncome, retirementTime, rate, inflation)
    ensures goal == Sustainable ==> r == ComfyRetirement(futureIncome, retirementTime, rate, inflation)
    ensures goal == Generational ==> r == GenerationalWealth(futureIncome, retirementTime, rate, inflation)
    ensures goal == Nobility ==> r == NobilityWealth(futureIncome, retirementTime, rate, inflation)
  {
    match goal
    case Supplemented => SupplementedRetirement(futureIncome, retirementTime, rate, inflation)
    case Sustainable => ComfyRetirement(futureIncome, retirementTime, rate, inflation)
    case Generational => GenerationalWealth(futureIncome, retirementTime, rate, inflation)
    case Nobility => NobilityWealth(futureIncome, retirementTime, rate, inflation)
  }

  // ---------------------------------------------------------------------------
  // What the goal principals do over the retirement
  // ---------------------------------------------------------------------------

  /** One year of retirement: growth, then the withdrawal, then inflation. */
  lemma DrawdownStep(balance: real, w: real, rate: real, inflation: real, years: nat)
    ensures Drawdown(balance, w, rate, inflation, years + 1)
         == Drawdown(balance * (1.0 + rate) - w, w * (1.0 + inflation), rate, inflation, years)
  {
  }

  /** The comfortable principal pays every withdrawal and ends at exactly 0. */
  lemma {:induction false} ComfyDepletes(balance: real, w: real, years: nat, rate: real, inflation: real)
    requires 1.0 + rate != 0.0 && rate != inflation
    requires balance == w * ComfyFactor(years, rate, inflation)
    ensures Drawdown(balance, w, rate, inflation, years) == 0.0
    decreases years
  {
    if years == 0 {
      ComfyFactorZero(rate, inflation);
    } else {
      var g := ComfyFactor(years - 1, rate, inflation);
      var w' := w * (1.0 + inflation);
      assert balance * (1.0 + rate) - w == w' * g by {
        ComfyFactorStep(years, rate, inflation);
        ScaledStep(w, ComfyFactor(years, rate, inflation), rate, g, inflation);
      }
      ComfyDepletes(w' * g, w', years - 1, rate, inflation);
      DepletedStep(balance, w, rate, inflation, years - 1, w' * g);
    }
  }

  lemma ComfyFactorZero(rate: real, inflation: real)
    requires 1.0 + rate != 0.0 && rate != inflation
    ensures ComfyFactor(0, rate, inflation) == 0.0
  {
    assert Pow((1.0 + inflation) / (1.0 + rate), 0) == 1.0;
  }

  lemma DepletedStep(balance: real, w: real, rate: real, inflation: real, years: nat, next: real)
    requires balance * (1.0 + rate) - w == next
    requires Drawdown(next, w * (1.0 + inflation), rate, inflation, years) == 0.0
    ensures Drawdown(balance, w, rate, inflation, years + 1) == 0.0
  {
  }

  /** One year of the comfortable drawdown on a principal of factor 1: what
      is left is the principal for the remaining years and the grown
      withdrawal. */
  lemma ComfyFactorStep(years: nat, rate: real, inflation: real)
    requires years >= 1 && 1.0 + rate != 0.0 && rate != inflation
    ensures ComfyFactor(years, rate, inflation) * (1.0 + rate) - 1.0
         == (1.0 + inflation) * ComfyFactor(years - 1, rate, inflation)
  {
    var q := (1.0 + inflation) / (1.0 + rate);
    var p := Pow(q, years - 1);
    assert Pow(q, years) == q * p;
    DivMulCancel(1.0 + inflation, 1.0 + rate);
    DivMulCancel(1.0 - q * p, rate - inflation);
    DivMulCancel(1.0 - p, rate - inflation);
    FactorAlgebra(q, p, rate, inflation, ComfyFactor(years, rate, inflation), ComfyFactor(years - 1, rate, inflation));
  }

  lemma FactorAlgebra(q: real, p: real, rate: real, inflation: real, a: real, b: real)
    requires rate != inflation
    requires q * (1.0 + rate) == 1.0 + inflation
    requires a * (rate - inflation) == 1.0 - q * p
    requires b * (rate - inflation) == 1.0 - p
    ensures a * (1.0 + rate) - 1.0 == (1.0 + inflation) * b
  {
    var d := rate - inflation;
    calc {
      (a * (1.0 + rate) - 1.0) * d;
      (a * d) * (1.0 + rate) - d;
      (1.0 - q * p) * (1.0 + rate) - d;
      (1.0 + rate) - p * (q * (1.0 + rate)) - d;
      (1.0 + inflation) - p * (1.0 + inflation);
      (1.0 + inflation) * (b * d);
      ((1.0 + inflation) * b) * d;
    }
    MulCancel(a * (1.0 + rate) - 1.0, (1.0 + inflation) * b, d);
  }

  lemma ScaledStep(w: real, f: real, rate: real, g: real, inflation: real)
    requires f * (1.0 + rate) - 1.0 == (1.0 + inflation) * g
    ensures (w * f) * (1.0 + rate) - w == (w * (1.0 + inflation)) * g
  {
    calc {
      (w * f) * (1.0 + rate) - w;
      w * (f * (1.0 + rate) - 1.0);
      w * ((1.0 + inflation) * g);
      (w * (1.0 + inflation)) * g;
    }
  }

  /** The generational principal keeps its real value for any number of
      years: after `years` withdrawals it has grown exactly with inflation. */
  lemma {:induction false} GenerationalKeepsValue(balance: real, w: real, rate: real, inflation: real, years: nat)
    requires balance * (rate - inflation) == w
    ensures Drawdown(balance, w, rate, inflation, years) == balance * Pow(1.0 + inflation, years)
    decreases years
  {
    if years > 0 {
      var b' := balance * (1.0 + inflation);
      var w' := w * (1.0 + inflation);
      var p := Pow(1.0 + inflation, years - 1);
      assert balance * (1.0 + rate) - w == b' && b' * (rate - inflation) == w' by {
        PerpetuityStep(balance, w, rate, inflation);
      }
      GenerationalKeepsValue(b', w', rate, inflation, years - 1);
      DrawdownStep(balance, w, rate, inflation, years - 1);
      assert Pow(1.0 + inflation, years) == (1.0 + inflation) * p;
      MulAssociative(balance, 1.0 + inflation, p);
    }
  }

  lemma PerpetuityStep(balance: real, w: real, rate: real, inflation: real)
    requires balance * (rate - inflation) == w
    ensures balance * (1.0 + rate) - w == balance * (1.0 + inflation)
    ensures (balance * (1.0 + inflation)) * (rate - inflation) == w * (1.0 + inflation)
  {
    MulAssociative(balance, 1.0 + inflation, rate - inflation);
    MulAssociative(balance, rate - inflation, 1.0 + inflation);
  }

  /** With a return above inflation plus NG, a balance of at least X facing a
      withdrawal of at most X*(r - i - NG) stays above X*(1 + i + NG)^years. */
  /** A balance of at least x whose withdrawal is at most x*(r - i - NG). */
  predicate AheadOf(balance: real, w: real, x: real, rate: real, inflation: real)
  {
    x >= 0.0 && balance >= x && w <= x * (rate - inflation - NG)
  }

  /** x grown by inflation plus NG for `years` years. */
  function Floor(x: real, inflation: real, years: nat): real
    decreases years
  {
    if years == 0 then x else Floor(x * (1.0 + inflation + NG), inflation, years - 1)
  }

  lemma {:induction false} FloorIsCompound(x: real, inflation: real, years: nat, grown: real)
    requires grown == x * Pow(1.0 + inflation + NG, years)
    ensures Floor(x, inflation, years) == grown
    decreases years
  {
    if years > 0 {
      var g := 1.0 + inflation + NG;
      var p := Pow(g, years - 1);
      assert Pow(g, years) == g * p;
      MulAssociative(x, g, p);
      FloorIsCompound(x * (1.0 + inflation + NG), inflation, years - 1, (x * g) * p);
    }
  }

  lemma {:induction false} NobilityGrowth(balance: real, w: real, x: real, rate: real, inflation: real, years: nat)
    requires rate - inflation - NG > 0.0 && 1.0 + inflation >= 0.0
    requires AheadOf(balance, w, x, rate, inflation)
    ensures Drawdown(balance, w, rate, inflation, years) >= Floor(x, inflation, years)
    decreases years
  {
    if years > 0 {
      NobilityStep(balance, w, x, rate, inflation);
      NobilityGrowth(balance * (1.0 + rate) - w, w * (1.0 + inflation), x * (1.0 + inflation + NG), rate, inflation, years - 1);
    }
  }

  lemma NobilityStep(balance: real, w: real, x: real, rate: real, inflation: real)
    requires rate - inflation - NG > 0.0 && 1.0 + inflation >= 0.0
    requires AheadOf(balance, w, x, rate, inflation)
    ensures AheadOf(balance * (1.0 + rate) - w, w * (1.0 + inflation), x * (1.0 + inflation + NG), rate, inflation)
  {
    var s := rate - inflation - NG;
    var g := 1.0 + inflation + NG;
    MulMonotoneLeft(1.0 + rate, x, balance);
    assert balance * (1.0 + rate) - w >= x * (1.0 + rate) - x * s;
    MulMonotoneLeft(1.0 + inflation, w, x * s);
    MulNonNegative(x, s);
    MulMonotoneLeft(x * s, 1.0 + inflation, g);
    MulNonNegative(x, g);
  }

  /** The nobility principal, when it does not fall back, grows by at least
      NG in real terms every year: after `years` withdrawals it is at least
      the principal times (1 + i + NG)^years. */
  lemma NobilityGrows(w: real, rate: real, inflation: real, years: nat)
    requires w >= 0.0 && 1.0 + inflation >= 0.0 && rate > inflation + NG
    ensures Drawdown(w / (rate - inflation - NG), w, rate, inflation, years)
         >= (w / (rate - inflation - NG)) * Pow(1.0 + inflation + NG, years)
  {
    var s := rate - inflation - NG;
    DivMulCancel(w, s);
    DivNonNegative(w, s);
    NobilityGrowth(w / s, w, w / s, rate, inflation, years);
    FloorIsCompound(w / s, inflation, years, (w / s) * Pow(1.0 + inflation + NG, years));
  }

  // ---------------------------------------------------------------------------
  // How the goal principals compare
  // ---------------------------------------------------------------------------

  /** With a return above inflation and inflation above -100%, the
      finite-horizon factor `1 - ((1+i)/(1+r))^d` lies in [0, 1), and in
      (0, 1) once there is a year of retirement. */
  lemma ComfyFactorBounds(years: nat, rate: real, inflation: real)
    requires rate > inflation && 1.0 + inflation > 0.0
    ensures ComfyFactor(years, rate, inflation) >= 0.0
    ensures years >= 1 ==> ComfyFactor(years, rate, inflation) > 0.0
    ensures ComfyFactor(years, rate, inflation) * (rate - inflation) < 1.0
  {
    var q := (1.0 + inflation) / (1.0 + rate);
    var d := rate - inflation;
    DivMulCancel(1.0 - Pow(q, years), d);
    DivBelowOne(1.0 + inflation, 1.0 + rate);
    DivPositive(1.0 + inflation, 1.0 + rate);
    if years == 0 {
      ComfyFactorZero(rate, inflation);
    } else {
      PowBetweenZeroAndOne(q, years);
      DivPositive(1.0 - Pow(q, years), d);
    }
  }

  /** For a positive income, a return above inflation and at least one
      year of retirement, the comfortable principal is positive and smaller
      than the generational one: a finite drawdown needs less than a
      perpetuity. */
  lemma ComfyBelowGenerational(desiredIncome: real, years: nat, rate: real, inflation: real)
    requires desiredIncome > 0.0 && rate > inflation && 1.0 + inflation > 0.0 && years >= 1
    ensures ComfyRetirement(desiredIncome, years, rate, inflation).Ok?
    ensures GenerationalWealth(desiredIncome, years, rate, inflation).Ok?
    ensures 0.0 < ComfyRetirement(desiredIncome, years, rate, inflation).value.amount
               < GenerationalWealth(desiredIncome, years, rate, inflation).value.amount
  {
    ComfyFactorBounds(years, rate, inflation);
    ScaledBelowQuotient(desiredIncome, ComfyFactor(years, rate, inflation), rate, inflation);
  }

  /** 0 < w*f < w/(r - i) for a positive w and a factor 0 < f < 1/(r - i). */
  lemma ScaledBelowQuotient(w: real, f: real, rate: real, inflation: real)
    requires w > 0.0 && f > 0.0 && rate > inflation && f * (rate - inflation) < 1.0
    ensures 0.0 < w * f < w / (rate - inflation)
  {
    var d := rate - inflation;
    MulPositive(w, f);
    MulStrictRight(f * d, 1.0, w);
    MulAssociative(w, f, d);
    BelowQuotient(w * f, w, d);
  }

  /** For a non-negative income the nobility principal is at least the
      generational one; they are equal when nobility falls back. */
  lemma NobilityAtLeastGenerational(desiredIncome: real, years: nat, rate: real, inflation: real)
    requires desiredIncome >= 0.0 && rate > inflation
    ensures NobilityWealth(desiredIncome, years, rate, inflation).Ok?
    ensures NobilityWealth(desiredIncome, years, rate, inflation).value.amount
         >= GenerationalWealth(desiredIncome, years, rate, inflation).value.amount
  {
    if rate > inflation + NG {
      DivAntitone(desiredIncome, rate - inflation - NG, rate - inflation);
    }
  }

  /** Every goal's principal is proportional to the desired income, and the
      advisories do not depend on it. */
  lemma PrincipalScales(futureIncome: real, retirementTime: nat, rate: real, inflation: real, goal: FinGoal)
    requires GoalFeasible(rate, inflation, goal)
    ensures PrincipalByGoal(futureIncome, retirementTime, rate, inflation, goal).value.amount
         == futureIncome * PrincipalByGoal(1.0, retirementTime, rate, inflation, goal).value.amount
    ensures PrincipalByGoal(futureIncome, retirementTime, rate, inflation, goal).value.closeRates
         == PrincipalByGoal(1.0, retirementTime, rate, inflation, goal).value.closeRates
    ensures PrincipalByGoal(futureIncome, retirementTime, rate, inflation, goal).value.fellBack
         == PrincipalByGoal(1.0, retirementTime, rate, inflation, goal).value.fellBack
  {
    match goal
    case Supplemented => SupplementedScales(futureIncome, retirementTime, rate, inflation);
    case Sustainable => ComfyScales(futureIncome, retirementTime, rate, inflation);
    case Generational => GenerationalScales(futureIncome, retirementTime, rate, inflation);
    case Nobility => NobilityScales(futureIncome, retirementTime, rate, inflation);
  }

  lemma SupplementedScales(desiredIncome: real, years: nat, rate: real, inflation: real)
    requires rate > inflation && 1.0 + rate != 0.0
    ensures SupplementedRetirement(desiredIncome, years, rate, inflation).value.amount
         == desiredIncome * SupplementedRetirement(1.0, years, rate, inflation).value.amount
  {
    var f := ComfyFactor(years, rate, inflation);
    MulAssociative(desiredIncome, SP, f);
  }

  lemma GenerationalScales(desiredIncome: real, years: nat, rate: real, inflation: real)
    requires rate > inflation
    ensures GenerationalWealth(desiredIncome, years, rate, inflation).value.amount
         == desiredIncome * GenerationalWealth(1.0, years, rate, inflation).value.amount
  {
    DivIsMulInverse(desiredIncome, rate - inflation);
  }

  lemma NobilityScales(desiredIncome: real, years: nat, rate: real, inflation: real)
    requires rate > inflation
    ensures NobilityWealth(desiredIncome, years, rate, inflation).value.amount
         == desiredIncome * NobilityWealth(1.0, years, rate, inflation).value.amount
  {
    if rate <= inflation + NG {
      GenerationalScales(desiredIncome, years, rate, inflation);
    } else {
      DivIsMulInverse(desiredIncome, rate - inflation - NG);
    }
  }

  lemma ComfyScales(desiredIncome: real, years: nat, rate: real, inflation: real)
    requires rate > inflation && 1.0 + rate != 0.0
    ensures ComfyRetirement(desiredIncome, years, rate, inflation).value.amount
         == desiredIncome * ComfyRetirement(1.0, years, rate, inflation).value.amount
  {
  }

  /** The principal for a unit income is non-negative once inflation is
      above -100%. */
  lemma UnitPrincipalNonNegative(retirementTime: nat, rate: real, inflation: real, goal: FinGoal)
    requires GoalFeasible(rate, inflation, goal) && 1.0 + inflation > 0.0
    ensures PrincipalByGoal(1.0, retirementTime, rate, inflation, goal).value.amount >= 0.0
  {
    match goal
    case Supplemented =>
      ComfyFactorBounds(retirementTime, rate, inflation);
    case Sustainable =>
      ComfyFactorBounds(retirementTime, rate, inflation);
    case Generational =>
      DivNonNegative(1.0, rate - inflation);
    case Nobility =>
      DivNonNegative(1.0, rate - inflation);
      if rate > inflation + NG {
        DivNonNegative(1.0, rate - inflation - NG);
      }
  }

  /** A larger desired income never needs a smaller principal. */
  lemma PrincipalMonotone(a: real, b: real, retirementTime: nat, rate: real, inflation: real, goal: FinGoal)
    requires a <= b && GoalFeasible(rate, inflation, goal) && 1.0 + inflation > 0.0
    ensures PrincipalByGoal(a, retirementTime, rate, inflation, goal).value.amount
         <= PrincipalByGoal(b, retirementTime, rate, inflation, goal).value.amount
  {
    PrincipalScales(a, retirementTime, rate, inflation, goal);
    PrincipalScales(b, retirementTime, rate, inflation, goal);
    UnitPrincipalNonNegative(retirementTime, rate, inflation, goal);
    var u := PrincipalByGoal(1.0, retirementTime, rate, inflation, goal).value.amount;
    MulMonotoneLeft(u, a, b);
  }

  // ---------------------------------------------------------------------------
  // Account analysers
  // ---------------------------------------------------------------------------

  const PrincipalKey: string := "Principal Required"
  const ContributionKey: string := "Yearly Contribution"
  const LimitKey: string := "Contribution Limit Met?"
  const EmployeeKey: string := "Employee Contribution"
  const EmployerKey: string := "Employer Contribution"
  const TotalKey: string := "Total Contribution"
  const RothEmployeeKey: string := "Employee Contribution After-Tax"
  const RothEmployerKey: string := "Employer Contribution Traditional"
  const EffectiveCostKey: string := "Effective Pre-Tax Cost"

  /** "Yes" exactly when the contribution exceeds the annual limit. */
  function LimitFlag(contribution: real, limit: real): (m: Metric)
    ensures m == Label("Yes") <==> contribution > limit
    ensures m == Label("Yes") || m == Label("No")
  {
    if contribution > limit then Label("Yes") else Label("No")
  }

  /** An account result carries its principal and yearly contribution as
      amounts. */
  predicate Reports(result: AccountResult)
  {
    PrincipalKey in result && result[PrincipalKey].Amount?
    && ContributionKey in result && result[ContributionKey].Amount?
  }

  /** `key` holds the dollar amount `amount`. */
  predicate Holds(result: AccountResult, key: string, amount: real)
  {
    key in result && result[key] == Amount(amount)
  }

  /** The yearly contribution, paid for `years` years at `rate`, accumulates
      to exactly the required principal. */
  predicate Funds(result: AccountResult, rate: real, years: nat)
  {
    PrincipalKey in result && ContributionKey in result
    && result[PrincipalKey].Amount? && result[ContributionKey].Amount?
    && Finlib.Accumulate(result[ContributionKey].value, rate, years) == result[PrincipalKey].value
  }

  /** The limit flag is raised exactly when the principal is more than the
      annual limit could accumulate to. */
  predicate FlagsLimit(result: AccountResult, limit: real, rate: real, years: nat)
  {
    PrincipalKey in result && LimitKey in result && result[PrincipalKey].Amount?
    && (result[LimitKey] == Label("Yes") <==> result[PrincipalKey].value > Finlib.Accumulate(limit, rate, years))
  }

  /** The employer-match split of a 401k: the employee pays the share
      (1 - match) of the base contribution, so employee contributions fund
      the share (1 - match) of the principal; the employer adds `match` of
      the employee's amount, and the total is the sum of the two. The yearly
      contribution reported is the employee's. */
  predicate MatchSplit(result: AccountResult, employeeKey: string, employerKey: string,
                       employerMatch: real, rate: real, years: nat)
  {
    PrincipalKey in result && ContributionKey in result && employeeKey in result
    && employerKey in result && TotalKey in result
    && result[PrincipalKey].Amount? && result[employeeKey].Amount?
    && result[employerKey].Amount? && result[TotalKey].Amount?
    && result[ContributionKey] == result[employeeKey]
    && Finlib.Accumulate(result[employeeKey].value, rate, years) == result[PrincipalKey].value * (1.0 - employerMatch)
    && result[employerKey].value == result[employeeKey].value * employerMatch
    && result[TotalKey].value == result[employeeKey].value + result[employerKey].value
  }

  /** The growth a brokerage principal is sized at: the return less the 15%
      tax on it. */
  function BrokerageGrowth(growthRate: real): (g: real)
    ensures growthRate > 0.0 ==> 0.0 < g < growthRate
    ensures g > I ==> growthRate > I
  {
    growthRate - growthRate * BrokerageWithdrawalTaxRate
  }

  /** The pre-tax amount that leaves `income` once `taxRate` is paid on it. */
  function GrossUp(income: real, taxRate: real): (g: real)
    requires taxRate < 1.0
    ensures g * (1.0 - taxRate) == income
    ensures income >= 0.0 && taxRate >= 0.0 ==> g >= income
  {
    DivMulCancel(income, 1.0 - taxRate);
    GrossUpAtLeast(income, taxRate);
    income / (1.0 - taxRate)
  }

  lemma GrossUpAtLeast(income: real, taxRate: real)
    requires taxRate < 1.0
    ensures income >= 0.0 && taxRate >= 0.0 ==> income / (1.0 - taxRate) >= income
  {
    if income >= 0.0 && taxRate >= 0.0 {
      DivAntitone(income, 1.0 - taxRate, 1.0);
    }
  }

  /** A principal and the level yearly contribution that accumulates to it. */
  datatype Plan = Plan(principal: real, contribution: real)

  /** Sizes a goal's principal at `principalRate` and the contribution that
      reaches it at `contributionRate`, failing as the principal formula and
      then contribution sizing do. */
  function SizePlan(income: real, retirementTime: nat, principalRate: real, contributionRate: real,
                    inflation: real, investmentTime: nat, goal: FinGoal): (r: Result<Plan>)
    ensures r.Ok? <==> GoalFeasible(principalRate, inflation, goal) && contributionRate > 0.0 && investmentTime >= 1
    ensures !GoalFeasible(principalRate, inflation, goal)
        ==> r == Err(PrincipalByGoal(income, retirementTime, principalRate, inflation, goal).error)
    ensures GoalFeasible(principalRate, inflation, goal) && contributionRate <= 0.0 ==> r == Err(InvalidRate)
    ensures GoalFeasible(principalRate, inflation, goal) && contributionRate > 0.0 && investmentTime == 0
        ==> r == Err(ZeroDivision)
    ensures r.Ok? ==> r.value.principal == PrincipalByGoal(income, retirementTime, principalRate, inflation, goal).value.amount
    ensures r.Ok? ==> Finlib.Accumulate(r.value.contribution, contributionRate, investmentTime) == r.value.principal
  {
    var estimate :- PrincipalByGoal(income, retirementTime, principalRate, inflation, goal);
    var contribution :- Finlib.RequiredConstantContribution(estimate.amount, contributionRate, investmentTime);
    Ok(Plan(estimate.amount, contribution))
  }

  /** The limit flag of a plan: raised by the contribution exceeding the
      limit, which is the same as the principal exceeding what the limit
      accumulates to. */
  function PlanFlag(plan: Plan, limit: real, rate: real, years: nat): (m: Metric)
    requires rate >= 0.0 && years >= 1
    requires Finlib.Accumulate(plan.contribution, rate, years) == plan.principal
    ensures m == LimitFlag(plan.contribution, limit)
    ensures m == Label("Yes") <==> plan.principal > Finlib.Accumulate(limit, rate, years)
  {
    Finlib.AccumulateOrder(plan.contribution, limit, rate, years);
    LimitFlag(plan.contribution, limit)
  }

  /** The result of an account whose yearly contribution is the whole
      plan contribution, flagged against the annual limit. */
  function FlaggedAccount(plan: Plan, limit: real, rate: real, years: nat): (result: AccountResult)
    requires rate >= 0.0 && years >= 1
    requires Finlib.Accumulate(plan.contribution, rate, years) == plan.principal
    ensures result.Keys == {PrincipalKey, ContributionKey, LimitKey}
    ensures Holds(result, PrincipalKey, plan.principal)
    ensures Funds(result, rate, years)
    ensures result[LimitKey] == LimitFlag(result[ContributionKey].value, limit)
    ensures FlagsLimit(result, limit, rate, years)
  {
    map[PrincipalKey := Amount(plan.principal), ContributionKey := Amount(plan.contribution),
        LimitKey := PlanFlag(plan, limit, rate, years)]
  }

  /** The employee's share of a base contribution, the employer's match on
      it, and their sum. */
  datatype Split = Split(employee: real, employer: real, total: real)

  function MatchedSplit(base: real, employerMatch: real): (s: Split)
    ensures s.employee == base * (1.0 - employerMatch)
    ensures s.employer == s.employee * employerMatch
    ensures s.total == s.employee + s.employer
  {
    var employee := base * (1.0 - employerMatch);
    var employer := employee * employerMatch;
    Split(employee, employer, employee + employer)
  }

  /** A share of a contribution that funds `principal` funds the same
      share of the principal. */
  lemma ShareFunds(base: real, employee: real, principal: real, share: real, rate: real, years: nat)
    requires Finlib.Accumulate(base, rate, years) == principal
    requires employee == base * share
    ensures Finlib.Accumulate(employee, rate, years) == principal * share
  {
    Finlib.AccumulateLinear(base, share, employee, rate, years);
  }

  /** The employee's share of the split funds the share (1 - match) of
      `principal`; the employer matches the employee's share; the total is
      the sum of the two. */
  predicate SplitFunds(split: Split, principal: real, employerMatch: real, rate: real, years: nat)
  {
    Finlib.Accumulate(split.employee, rate, years) == principal * (1.0 - employerMatch)
    && split.employer == split.employee * employerMatch
    && split.total == split.employee + split.employer
  }

  /** The match split of a contribution that funds `principal` funds its
      share of it. */
  lemma MatchedSplitFunds(base: real, principal: real, employerMatch: real, rate: real, years: nat)
    requires Finlib.Accumulate(base, rate, years) == principal
    ensures SplitFunds(MatchedSplit(base, employerMatch), principal, employerMatch, rate, years)
  {
    var split := MatchedSplit(base, employerMatch);
    ShareFunds(base, split.employee, principal, 1.0 - employerMatch, rate, years);
  }

  /** The names a 401k reports the two shares under: the Roth 401k's say
      that the employee pays after tax and that the match goes to a
      traditional account. */
  function EmployeeKeyOf(roth: bool): string
  {
    if roth then RothEmployeeKey else EmployeeKey
  }

  function EmployerKeyOf(roth: bool): string
  {
    if roth then RothEmployerKey else EmployerKey
  }

  /** The dictionary a 401k reports a principal, a split of the employee
      contribution that funds the employee's share of it, and a limit flag
      in. */
  function SplitMap(principal: real, split: Split, roth: bool, flag: Metric,
                    employerMatch: real, rate: real, years: nat): (result: AccountResult)
    requires SplitFunds(split, principal, employerMatch, rate, years)
    ensures result.Keys == {PrincipalKey, ContributionKey, EmployeeKeyOf(roth), EmployerKeyOf(roth), TotalKey, LimitKey}
    ensures Holds(result, PrincipalKey, principal)
    ensures MatchSplit(result, EmployeeKeyOf(roth), EmployerKeyOf(roth), employerMatch, rate, years)
    ensures result[LimitKey] == flag
  {
    map[PrincipalKey := Amount(principal), ContributionKey := Amount(split.employee),
        EmployeeKeyOf(roth) := Amount(split.employee), EmployerKeyOf(roth) := Amount(split.employer),
        TotalKey := Amount(split.total), LimitKey := flag]
  }

  /** The result of a 401k: the plan contribution is the base that the
      employer match splits, and the base is what is flagged. */
  function SplitAccount(plan: Plan, roth: bool, employerMatch: real, limit: real, rate: real, years: nat): (result: AccountResult)
    requires rate >= 0.0 && years >= 1
    requires Finlib.Accumulate(plan.contribution, rate, years) == plan.principal
    ensures result.Keys == {PrincipalKey, ContributionKey, EmployeeKeyOf(roth), EmployerKeyOf(roth), TotalKey, LimitKey}
    ensures Holds(result, PrincipalKey, plan.principal)
    ensures MatchSplit(result, EmployeeKeyOf(roth), EmployerKeyOf(roth), employerMatch, rate, years)
    ensures FlagsLimit(result, limit, rate, years)
  {
    MatchedSplitFunds(plan.contribution, plan.principal, employerMatch, rate, years);
    SplitMap(plan.principal, MatchedSplit(plan.contribution, employerMatch), roth,
             PlanFlag(plan, limit, rate, years), employerMatch, rate, years)
  }

  /** A key outside the split leaves the split as it is. */
  lemma MatchSplitUpdate(result: AccountResult, employeeKey: string, employerKey: string,
                         employerMatch: real, rate: real, years: nat, key: string, value: Metric)
    requires MatchSplit(result, employeeKey, employerKey, employerMatch, rate, years)
    requires key != PrincipalKey && key != ContributionKey && key != TotalKey
    requires key != employeeKey && key != employerKey
    ensures MatchSplit(result[key := value], employeeKey, employerKey, employerMatch, rate, years)
  {
  }

  /** The Roth 401k's result: the split account plus the pre-tax income
      that would leave the employee's share after tax at `taxRate`. */
  function RothSplitAccount(plan: Plan, employerMatch: real, limit: real, rate: real, years: nat, taxRate: real): (result: AccountResult)
    requires rate >= 0.0 && years >= 1 && taxRate < 1.0
    requires Finlib.Accumulate(plan.contribution, rate, years) == plan.principal
    ensures result.Keys == {PrincipalKey, ContributionKey, RothEmployeeKey, RothEmployerKey, TotalKey, EffectiveCostKey, LimitKey}
    ensures Holds(result, PrincipalKey, plan.principal)
    ensures MatchSplit(result, RothEmployeeKey, RothEmployerKey, employerMatch, rate, years)
    ensures FlagsLimit(result, limit, rate, years)
    ensures Holds(result, EffectiveCostKey, GrossUp(result[RothEmployeeKey].value, taxRate))
  {
    var account := SplitAccount(plan, true, employerMatch, limit, rate, years);
    var cost := Amount(GrossUp(account[RothEmployeeKey].value, taxRate));
    MatchSplitUpdate(account, RothEmployeeKey, RothEmployerKey, employerMatch, rate, years, EffectiveCostKey, cost);
    account[EffectiveCostKey := cost]
  }

  /** Brokerage: the principal is sized at the after-tax growth, but the
      contribution that funds it at the full growth rate. */
  function AnalyzeBrokerageAccount(futureIncome: real, growthRate: real, inflation: real,
                                   investmentTime: nat, retirementTime: nat, goal: FinGoal): (r: Result<AccountResult>)
    ensures r.Ok? <==> GoalFeasible(BrokerageGrowth(growthRate), inflation, goal) && growthRate > 0.0 && investmentTime >= 1
    ensures r.Err? ==>
      r.error == SizePlan(futureIncome, retirementTime, BrokerageGrowth(growthRate), growthRate, inflation, investmentTime, goal).error
    ensures r.Ok? ==> r.value.Keys == {PrincipalKey, ContributionKey}
    ensures r.Ok? ==> Reports(r.value)
    ensures r.Ok? ==> Holds(r.value, PrincipalKey,
      PrincipalByGoal(futureIncome, retirementTime, BrokerageGrowth(growthRate), inflation, goal).value.amount)
    ensures r.Ok? ==> Funds(r.value, growthRate, investmentTime)
  {
    var plan :- SizePlan(futureIncome, retirementTime, BrokerageGrowth(growthRate), growthRate, inflation, investmentTime, goal);
    Ok(map[PrincipalKey := Amount(plan.principal), ContributionKey := Amount(plan.contribution)])
  }

  /** The income a tax-deferred account must pay out before tax so that
      `futureIncome` is left after the tax on that income. */
  function WithdrawalNeed(futureIncome: real, filingStatus: string): (need: real)
    requires filingStatus in Finlib.StatusKeys
    ensures futureIncome >= 0.0 ==> need >= futureIncome
  {
    GrossUp(futureIncome, Finlib.PostTaxIncome(futureIncome, filingStatus).value.rate)
  }

  /** Traditional IRA: the principal is sized for the income grossed up by
      the effective tax rate on it; the contribution is not capped, only
      flagged against the limit. */
  function AnalyzeTraditionalIra(futureIncome: real, growthRate: real, inflation: real,
                                 investmentTime: nat, retirementTime: nat, goal: FinGoal,
                                 filingStatus: string, annualContributionLimit: real): (r: Result<AccountResult>)
    ensures r.Ok? <==>
      filingStatus in Finlib.StatusKeys && GoalFeasible(growthRate, inflation, goal) && growthRate > 0.0 && investmentTime >= 1
    ensures filingStatus !in Finlib.StatusKeys ==> r == Err(InvalidFilingStatus)
    ensures filingStatus in Finlib.StatusKeys && r.Err? ==>
      r.error == SizePlan(WithdrawalNeed(futureIncome, filingStatus), retirementTime, growthRate, growthRate, inflation, investmentTime, goal).error
    ensures r.Ok? ==> r.value.Keys == {PrincipalKey, ContributionKey, LimitKey}
    ensures r.Ok? ==> Reports(r.value)
    ensures r.Ok? ==> Holds(r.value, PrincipalKey,
      PrincipalByGoal(WithdrawalNeed(futureIncome, filingStatus), retirementTime, growthRate, inflation, goal).value.amount)
    ensures r.Ok? ==> Funds(r.value, growthRate, investmentTime)
    ensures r.Ok? ==> r.value[LimitKey] == LimitFlag(r.value[ContributionKey].value, annualContributionLimit)
    ensures r.Ok? ==> FlagsLimit(r.value, annualContributionLimit, growthRate, investmentTime)
  {
    if filingStatus !in Finlib.StatusKeys then Err(InvalidFilingStatus)
    else
      var plan :- SizePlan(WithdrawalNeed(futureIncome, filingStatus), retirementTime, growthRate, growthRate, inflation, investmentTime, goal);
      Ok(FlaggedAccount(plan, annualContributionLimit, growthRate, investmentTime))
  }

  /** Roth IRA: withdrawals are untaxed, so the principal is sized for the
      income itself; the contribution is flagged, not capped. */
  function AnalyzeRothIra(futureIncome: real, growthRate: real, inflation: real,
                          investmentTime: nat, retirementTime: nat, goal: FinGoal,
                          annualContributionLimit: real): (r: Result<AccountResult>)
    ensures r.Ok? <==> GoalFeasible(growthRate, inflation, goal) && growthRate > 0.0 && investmentTime >= 1
    ensures r.Err? ==>
      r.error == SizePlan(futureIncome, retirementTime, growthRate, growthRate, inflation, investmentTime, goal).error
    ensures r.Ok? ==> r.value.Keys == {PrincipalKey, ContributionKey, LimitKey}
    ensures r.Ok? ==> Reports(r.value)
    ensures r.Ok? ==> Holds(r.value, PrincipalKey,
      PrincipalByGoal(futureIncome, retirementTime, growthRate, inflation, goal).value.amount)
    ensures r.Ok? ==> Funds(r.value, growthRate, investmentTime)
    ensures r.Ok? ==> r.value[LimitKey] == LimitFlag(r.value[ContributionKey].value, annualContributionLimit)
    ensures r.Ok? ==> FlagsLimit(r.value, annualContributionLimit, growthRate, investmentTime)
  {
    var plan :- SizePlan(futureIncome, retirementTime, growthRate, growthRate, inflation, investmentTime, goal);
    Ok(FlaggedAccount(plan, annualContributionLimit, growthRate, investmentTime))
  }

  /** Traditional 401k: the principal is sized for the grossed-up income
      like the traditional IRA; the base contribution is split between
      employee and employer, and the flag compares the base (not the
      employee's share) with the limit. */
  function AnalyzeTraditional401k(futureIncome: real, growthRate: real, inflation: real,
                                  investmentTime: nat, retirementTime: nat, goal: FinGoal,
                                  filingStatus: string, annualContributionLimit: real,
                                  employerMatch: real): (r: Result<AccountResult>)
    ensures r.Ok? <==>
      filingStatus in Finlib.StatusKeys && GoalFeasible(growthRate, inflation, goal) && growthRate > 0.0 && investmentTime >= 1
    ensures filingStatus !in Finlib.StatusKeys ==> r == Err(InvalidFilingStatus)
    ensures filingStatus in Finlib.StatusKeys && r.Err? ==>
      r.error == SizePlan(WithdrawalNeed(futureIncome, filingStatus), retirementTime, growthRate, growthRate, inflation, investmentTime, goal).error
    ensures r.Ok? ==> r.value.Keys == {PrincipalKey, ContributionKey, EmployeeKey, EmployerKey, TotalKey, LimitKey}
    ensures r.Ok? ==> Reports(r.value)
    ensures r.Ok? ==> Holds(r.value, PrincipalKey,
      PrincipalByGoal(WithdrawalNeed(futureIncome, filingStatus), retirementTime, growthRate, inflation, goal).value.amount)
    ensures r.Ok? ==> MatchSplit(r.value, EmployeeKey, EmployerKey, employerMatch, growthRate, investmentTime)
    ensures r.Ok? ==> FlagsLimit(r.value, annualContributionLimit, growthRate, investmentTime)
  {
    if filingStatus !in Finlib.StatusKeys then Err(InvalidFilingStatus)
    else
      var plan :- SizePlan(WithdrawalNeed(futureIncome, filingStatus), retirementTime, growthRate, growthRate, inflation, investmentTime, goal);
      Ok(SplitAccount(plan, false, employerMatch, annualContributionLimit, growthRate, investmentTime))
  }

  /** Roth 401k: the principal is sized for the untaxed income; the split is
      the traditional 401k's; the effective pre-tax cost grosses the
      employee's share up by the effective tax rate on the current income,
      which is computed after the contributions, so a bad filing status is
      reported only once the principal and contribution were sized. */
  function AnalyzeRoth401k(futureIncome: real, growthRate: real, inflation: real,
                           investmentTime: nat, retirementTime: nat, goal: FinGoal,
                           filingStatus: string, annualContributionLimit: real,
                           employerMatch: real, currentIncome: real): (r: Result<AccountResult>)
    ensures r.Ok? <==>
      filingStatus in Finlib.StatusKeys && GoalFeasible(growthRate, inflation, goal) && growthRate > 0.0 && investmentTime >= 1
    ensures SizePlan(futureIncome, retirementTime, growthRate, growthRate, inflation, investmentTime, goal).Err? ==>
      r == Err(SizePlan(futureIncome, retirementTime, growthRate, growthRate, inflation, investmentTime, goal).error)
    ensures (SizePlan(futureIncome, retirementTime, growthRate, growthRate, inflation, investmentTime, goal).Ok?
             && filingStatus !in Finlib.StatusKeys) ==> r == Err(InvalidFilingStatus)
    ensures r.Ok? ==>
      r.value.Keys == {PrincipalKey, ContributionKey, RothEmployeeKey, RothEmployerKey, TotalKey, EffectiveCostKey, LimitKey}
    ensures r.Ok? ==> Reports(r.value)
    ensures r.Ok? ==> Holds(r.value, PrincipalKey,
      PrincipalByGoal(futureIncome, retirementTime, growthRate, inflation, goal).value.amount)
    ensures r.Ok? ==> MatchSplit(r.value, RothEmployeeKey, RothEmployerKey, employerMatch, growthRate, investmentTime)
    ensures r.Ok? ==> FlagsLimit(r.value, annualContributionLimit, growthRate, investmentTime)
    ensures r.Ok? ==> Holds(r.value, EffectiveCostKey,
      GrossUp(r.value[RothEmployeeKey].value, Finlib.PostTaxIncome(currentIncome, filingStatus).value.rate))
  {
    var plan :- SizePlan(futureIncome, retirementTime, growthRate, growthRate, inflation, investmentTime, goal);
    var post :- Finlib.PostTaxIncome(currentIncome, filingStatus);
    Ok(RothSplitAccount(plan, employerMatch, annualContributionLimit, growthRate, investmentTime, post.rate))
  }

  /** For a non-negative income and inflation above -100%, the traditional
      IRA needs at least the Roth IRA's principal: the tax on withdrawals
      only ever raises the income to be funded. */
  lemma TraditionalIraNeedsMore(futureIncome: real, growthRate: real, inflation: real,
                                investmentTime: nat, retirementTime: nat, goal: FinGoal,
                                filingStatus: string, annualContributionLimit: real)
    requires futureIncome >= 0.0 && 1.0 + inflation > 0.0
    requires AnalyzeTraditionalIra(futureIncome, growthRate, inflation, investmentTime, retirementTime, goal,
                                   filingStatus, annualContributionLimit).Ok?
    ensures AnalyzeRothIra(futureIncome, growthRate, inflation, investmentTime, retirementTime, goal,
                           annualContributionLimit).Ok?
    ensures AnalyzeTraditionalIra(futureIncome, growthRate, inflation, investmentTime, retirementTime, goal,
                                  filingStatus, annualContributionLimit).value[PrincipalKey].value
         >= AnalyzeRothIra(futureIncome, growthRate, inflation, investmentTime, retirementTime, goal,
                           annualContributionLimit).value[PrincipalKey].value
  {
    PrincipalMonotone(futureIncome, WithdrawalNeed(futureIncome, filingStatus), retirementTime, growthRate, inflation, goal);
  }

  // ---------------------------------------------------------------------------
  // Orchestrator
  // ---------------------------------------------------------------------------

  /** The account types, in the order the analysis lists them. */
  const AccountNames: seq<string> := ["Brokerage Account", "Traditional IRA", "Roth IRA", "Traditional 401k", "Roth 401k"]

  /** Today's desired income in dollars of the retirement date, inflated at I
      for the years until then. */
  function FutureIncome(qualityOfLife: real, investmentTime: nat): real
  {
    qualityOfLife * Pow(1.0 + I, investmentTime)
  }

  /** The analysis's list: each account result under its account name. */
  function Listing(brokerage: AccountResult, traditionalIra: AccountResult, rothIra: AccountResult,
                   traditional401k: AccountResult, roth401k: AccountResult): (accounts: Accounts)
    requires Reports(brokerage) && Reports(traditionalIra) && Reports(rothIra)
    requires Reports(traditional401k) && Reports(roth401k)
    ensures |accounts| == |AccountNames|
    ensures forall k :: 0 <= k < |accounts| ==> accounts[k].0 == AccountNames[k] && Reports(accounts[k].1)
    ensures accounts[0].1 == brokerage && accounts[1].1 == traditionalIra && accounts[2].1 == rothIra
    ensures accounts[3].1 == traditional401k && accounts[4].1 == roth401k
  {
    [(AccountNames[0], brokerage), (AccountNames[1], traditionalIra), (AccountNames[2], rothIra),
     (AccountNames[3], traditional401k), (AccountNames[4], roth401k)]
  }

  /** Analyses the five account types for one goal. The call fails when the
      after-tax brokerage growth does not exceed inflation, when there are
      no years to invest, or when the filing status is unknown, in that
      order; otherwise every account reports its principal and yearly
      contribution, and the Roth 401k's effective cost is taxed at today's
      income. */
  function AnalyzeRetirementOptions(qualityOfLife: real, growthRate: real, investmentTime: nat, retirementTime: nat,
                                    goal: FinGoal := Sustainable, filingStatus: string := "single",
                                    employerMatch: real := 0.05, annualContributionLimit401k: real := 23500.0,
                                    annualContributionLimitIra: real := 7000.0): (r: Result<Accounts>)
    ensures r.Ok? <==> BrokerageGrowth(growthRate) > I && investmentTime >= 1 && filingStatus in Finlib.StatusKeys
    ensures BrokerageGrowth(growthRate) <= I ==> r == Err(RateOrdering)
    ensures BrokerageGrowth(growthRate) > I && investmentTime == 0 ==> r == Err(ZeroDivision)
    ensures BrokerageGrowth(growthRate) > I && investmentTime >= 1 && filingStatus !in Finlib.StatusKeys
        ==> r == Err(InvalidFilingStatus)
    ensures r.Ok? ==> |r.value| == |AccountNames|
    ensures r.Ok? ==> forall k :: 0 <= k < |r.value| ==>
      r.value[k].0 == AccountNames[k] && Reports(r.value[k].1)
    ensures r.Ok? ==> r.value[0].1 == AnalyzeBrokerageAccount(FutureIncome(qualityOfLife, investmentTime), growthRate, I,
      investmentTime, retirementTime, goal).value
    ensures r.Ok? ==> r.value[1].1 == AnalyzeTraditionalIra(FutureIncome(qualityOfLife, investmentTime), growthRate, I,
      investmentTime, retirementTime, goal, filingStatus, annualContributionLimitIra).value
    ensures r.Ok? ==> r.value[2].1 == AnalyzeRothIra(FutureIncome(qualityOfLife, investmentTime), growthRate, I,
      investmentTime, retirementTime, goal, annualContributionLimitIra).value
    ensures r.Ok? ==> r.value[3].1 == AnalyzeTraditional401k(FutureIncome(qualityOfLife, investmentTime), growthRate, I,
      investmentTime, retirementTime, goal, filingStatus, annualContributionLimit401k, employerMatch).value
    ensures r.Ok? ==> r.value[4].1 == AnalyzeRoth401k(FutureIncome(qualityOfLife, investmentTime), growthRate, I,
      investmentTime, retirementTime, goal, filingStatus, annualContributionLimit401k, employerMatch, qualityOfLife).value
  {
    var futureIncome := FutureIncome(qualityOfLife, investmentTime);
    var brokerage :- AnalyzeBrokerageAccount(futureIncome, growthRate, I, investmentTime, retirementTime, goal);
    var traditionalIra :- AnalyzeTraditionalIra(futureIncome, growthRate, I, investmentTime, retirementTime, goal,
                                                filingStatus, annualContributionLimitIra);
    // Once the brokerage and traditional IRA analyses succeed, the other three cannot fail.
    var rothIra := AnalyzeRothIra(futureIncome, growthRate, I, investmentTime, retirementTime, goal,
                                  annualContributionLimitIra).value;
    var traditional401k := AnalyzeTraditional401k(futureIncome, growthRate, I, investmentTime, retirementTime, goal,
                                                  filingStatus, annualContributionLimit401k, employerMatch).value;
    var roth401k := AnalyzeRoth401k(futureIncome, growthRate, I, investmentTime, retirementTime, goal,
                                    filingStatus, annualContributionLimit401k, employerMatch, qualityOfLife).value;
    Ok(Listing(brokerage, traditionalIra, rothIra, traditional401k, roth401k))
  }
}
