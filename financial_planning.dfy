/** The older variant of the projection engine, financial_planning.py. Its
    goal formulas, tax tables and contribution sizing are the current ones;
    it differs in six places, each modelled here: income tax without FICA,
    a two-to-one goal dispatch, IRA contributions capped at the annual
    limit, a 401k split capped at the limit, result keys that carry the
    goal's name, and a final pass that picks the account with the lowest
    yearly contribution. */
module FinancialPlanning {
  import opened Common
  import opened Powers
  import Finlib
  import RP = RetirementPlanner

  /** Inflation assumed by the orchestrator (`I`). */
  const I: real := 0.03

  // ---------------------------------------------------------------------------
  // Post-tax income without FICA
  // ---------------------------------------------------------------------------

  /** Net income and effective rate for a known status: the same
      deduction-floored bracket walk as the current engine, but net income
      is income less income tax alone and the rate is that tax over income
      (0 when income is not positive). */
  function Taxes(income: real, s: Finlib.FilingStatus): (p: Finlib.PostTax)
    ensures 0.0 <= p.rate < 1.0
    ensures p.net == income - Finlib.IncomeTax(income, s)
    ensures income > 0.0 ==> p.net == income * (1.0 - p.rate)
    ensures income >= 0.0 ==> p.net <= income
    ensures income <= 0.0 ==> p.rate == 0.0
  {
    Finlib.IncomeTaxBounds(income, s);
    Finlib.OwedBelowIncome(income, Finlib.IncomeTax(income, s), 0.0, Finlib.TaxableIncome(income, s));
    Finlib.Settle(income, Finlib.IncomeTax(income, s))
  }

  /** This variant's `calculate_post_tax_income` as a function of its
      inputs: an unknown filing status is an error. */
  function PostTaxIncome(income: real, filingStatus: string): (r: Result<Finlib.PostTax>)
    ensures r.Err? <==> filingStatus !in Finlib.StatusKeys
    ensures r.Err? ==> r.error == InvalidFilingStatus
    ensures r.Ok? ==> r.value == Taxes(income, Finlib.ParseStatus(filingStatus).value)
    ensures r.Ok? ==> 0.0 <= r.value.rate < 1.0
  {
    var s :- Finlib.ParseStatus(filingStatus);
    Ok(Taxes(income, s))
  }

  /** The bracket walk of this variant, run as a loop over the table. */
  method CalculatePostTaxIncome(income: real, filingStatus: string := "single") returns (r: Result<Finlib.PostTax>)
    ensures r == PostTaxIncome(income, filingStatus)
  {
    var s :- Finlib.ParseStatus(filingStatus);
    Finlib.TablesWellFormed(s);
    var taxableIncome := Max(0.0, income - Finlib.StandardDeduction(s));
    var totalTax := Finlib.WalkBrackets(taxableIncome, Finlib.OrdinaryBrackets(s));
    var postTaxIncome := income - totalTax;
    var effectiveTaxRate := if income > 0.0 then totalTax / income else 0.0;
    r := Ok(Finlib.PostTax(postTaxIncome, effectiveTaxRate));
  }

  /** Paying less out of the same income leaves more net income at a lower
      effective rate. */
  lemma SettleOrder(income: real, less: real, more: real)
    requires income >= 0.0 && 0.0 <= less <= more && (income > 0.0 ==> more < income)
    ensures Finlib.Settle(income, less).net >= Finlib.Settle(income, more).net
    ensures Finlib.Settle(income, less).rate <= Finlib.Settle(income, more).rate
  {
    var lower := Finlib.Settle(income, less);
    var higher := Finlib.Settle(income, more);
    if income > 0.0 {
      DivMonotone(less, more, income);
    }
  }

  /** Income tax and FICA together are a share of a positive income below
      one. */
  lemma CurrentOwed(income: real, s: Finlib.FilingStatus)
    requires income >= 0.0
    ensures 0.0 <= Finlib.IncomeTax(income, s) + Finlib.Fica(income, s)
    ensures income > 0.0 ==> Finlib.IncomeTax(income, s) + Finlib.Fica(income, s) < income
  {
    Finlib.IncomeTaxBounds(income, s);
    Finlib.OwedBelowIncome(income, Finlib.IncomeTax(income, s), Finlib.Fica(income, s), Finlib.TaxableIncome(income, s));
  }

  /** The current engine's figures are income tax and FICA settled
      together. */
  lemma CurrentSettled(income: real, s: Finlib.FilingStatus)
    requires income >= 0.0 ==> 0.0 <= Finlib.IncomeTax(income, s) + Finlib.Fica(income, s)
    requires income > 0.0 ==> Finlib.IncomeTax(income, s) + Finlib.Fica(income, s) < income
    ensures Finlib.Taxes(income, s) == Finlib.Settle(income, Finlib.IncomeTax(income, s) + Finlib.Fica(income, s))
  {
  }

  /** Without FICA, this variant leaves at least as much net income as the
      current engine, at an effective rate no higher. */
  lemma NetAtLeastCurrent(income: real, s: Finlib.FilingStatus)
    requires income >= 0.0
    ensures Taxes(income, s).net >= Finlib.Taxes(income, s).net
    ensures Taxes(income, s).rate <= Finlib.Taxes(income, s).rate
  {
    var tax := Finlib.IncomeTax(income, s);
    var fica := Finlib.Fica(income, s);
    Finlib.IncomeTaxBounds(income, s);
    CurrentOwed(income, s);
    CurrentSettled(income, s);
    SettleOrder(income, tax, tax + fica);
  }

  // ---------------------------------------------------------------------------
  // Two-to-one goal dispatch
  // ---------------------------------------------------------------------------

  /** Supplemented and sustainable goals both fund the full income for a
      finite retirement; generational and nobility goals both use the
      perpetuity. */
  function PrincipalByGoal(futureIncome: real, retirementTime: nat, rate: real, inflation: real, goal: RP.FinGoal): (r: Result<RP.Estimate>)
    ensures r.Ok? <==> RP.GoalFeasible(rate, inflation, goal)
    ensures goal.Supplemented? || goal.Sustainable? ==> r == RP.ComfyRetirement(futureIncome, retirementTime, rate, inflation)
    ensures goal.Generational? || goal.Nobility? ==> r == RP.GenerationalWealth(futureIncome, retirementTime, rate, inflation)
  {
    match goal
    case Supplemented => RP.ComfyRetirement(futureIncome, retirementTime, rate, inflation)
    case Sustainable => RP.ComfyRetirement(futureIncome, retirementTime, rate, inflation)
    case Generational => RP.GenerationalWealth(futureIncome, retirementTime, rate, inflation)
    case Nobility => RP.GenerationalWealth(futureIncome, retirementTime, rate, inflation)
  }

  /** The current engine's goal that this variant's dispatch agrees with. */
  function Collapse(goal: RP.FinGoal): RP.FinGoal
  {
    if goal.Supplemented? || goal.Sustainable? then RP.Sustainable else RP.Generational
  }

  /** Every goal of this variant is the current engine's sustainable or
      generational goal. */
  lemma DispatchCollapses(futureIncome: real, retirementTime: nat, rate: real, inflation: real, goal: RP.FinGoal)
    ensures PrincipalByGoal(futureIncome, retirementTime, rate, inflation, goal)
         == RP.PrincipalByGoal(futureIncome, retirementTime, rate, inflation, Collapse(goal))
  {
  }

  /** A supplemented goal here funds the whole income, so it needs at least
      the current engine's supplemented principal, which funds 40% of it. */
  lemma SupplementedNeedsMore(futureIncome: real, retirementTime: nat, rate: real, inflation: real)
    requires futureIncome >= 0.0 && rate > inflation && 1.0 + inflation > 0.0
    ensures PrincipalByGoal(futureIncome, retirementTime, rate, inflation, RP.Supplemented).Ok?
    ensures PrincipalByGoal(futureIncome, retirementTime, rate, inflation, RP.Supplemented).value.amount
         >= RP.PrincipalByGoal(futureIncome, retirementTime, rate, inflation, RP.Supplemented).value.amount
  {
    RP.ComfyScales(futureIncome, retirementTime, rate, inflation);
    RP.ComfyScales(futureIncome * RP.SP, retirementTime, rate, inflation);
    RP.UnitPrincipalNonNegative(retirementTime, rate, inflation, RP.Sustainable);
    var u := RP.ComfyRetirement(1.0, retirementTime, rate, inflation).value.amount;
    MulMonotoneLeft(u, futureIncome * RP.SP, futureIncome);
  }

  /** A nobility goal here never falls back and never asks for more than
      the current engine's nobility principal. */
  lemma NobilityNeedsLess(futureIncome: real, retirementTime: nat, rate: real, inflation: real)
    requires futureIncome >= 0.0 && rate > inflation
    ensures PrincipalByGoal(futureIncome, retirementTime, rate, inflation, RP.Nobility).Ok?
    ensures !PrincipalByGoal(futureIncome, retirementTime, rate, inflation, RP.Nobility).value.fellBack
    ensures PrincipalByGoal(futureIncome, retirementTime, rate, inflation, RP.Nobility).value.amount
         <= RP.PrincipalByGoal(futureIncome, retirementTime, rate, inflation, RP.Nobility).value.amount
  {
    RP.NobilityAtLeastGenerational(futureIncome, retirementTime, rate, inflation);
  }

  /** A larger desired income never needs a smaller principal. */
  lemma PrincipalMonotone(a: real, b: real, retirementTime: nat, rate: real, inflation: real, goal: RP.FinGoal)
    requires a <= b && RP.GoalFeasible(rate, inflation, goal) && 1.0 + inflation > 0.0
    ensures PrincipalByGoal(a, retirementTime, rate, inflation, goal).value.amount
         <= PrincipalByGoal(b, retirementTime, rate, inflation, goal).value.amount
  {
    DispatchCollapses(a, retirementTime, rate, inflation, goal);
    DispatchCollapses(b, retirementTime, rate, inflation, goal);
    RP.PrincipalMonotone(a, b, retirementTime, rate, inflation, Collapse(goal));
  }

  /** Sizes a goal's principal at `principalRate` and the contribution that
      reaches it at `contributionRate`, failing as the principal formula and
      then contribution sizing do. */
  function SizePlan(income: real, retirementTime: nat, principalRate: real, contributionRate: real,
                    inflation: real, investmentTime: nat, goal: RP.FinGoal): (r: Result<RP.Plan>)
    ensures r.Ok? <==> RP.GoalFeasible(principalRate, inflation, goal) && contributionRate > 0.0 && investmentTime >= 1
    ensures !RP.GoalFeasible(principalRate, inflation, goal)
        ==> r == Err(PrincipalByGoal(income, retirementTime, principalRate, inflation, goal).error)
    ensures RP.GoalFeasible(principalRate, inflation, goal) && contributionRate <= 0.0 ==> r == Err(InvalidRate)
    ensures RP.GoalFeasible(principalRate, inflation, goal) && contributionRate > 0.0 && investmentTime == 0
        ==> r == Err(ZeroDivision)
    ensures r.Ok? ==> r.value.principal == PrincipalByGoal(income, retirementTime, principalRate, inflation, goal).value.amount
    ensures r.Ok? ==> Finlib.Accumulate(r.value.contribution, contributionRate, investmentTime) == r.value.principal
  {
    var estimate :- PrincipalByGoal(income, retirementTime, principalRate, inflation, goal);
    var contribution :- Finlib.RequiredConstantContribution(estimate.amount, contributionRate, investmentTime);
    Ok(RP.Plan(estimate.amount, contribution))
  }

  // ---------------------------------------------------------------------------
  // Result keys named after the goal
  // ---------------------------------------------------------------------------

  /** The goal's enum name, as Python's `goal.name` spells it. */
  function GoalName(goal: RP.FinGoal): string
  {
    match goal
    case Supplemented => "Supplemented"
    case Sustainable => "Sustainable"
    case Generational => "Generational"
    case Nobility => "Nobility"
  }

  /** `f"{label} ({goal.name})"`. */
  function Named(caption: string, goal: RP.FinGoal): string
  {
    caption + " (" + GoalName(goal) + ")"
  }

  const PrincipalLabel: string := "Principal"
  const ContributionLabel: string := "Required Contribution"
  const EmployeeLabel: string := "Employee Contribution"
  const EmployerLabel: string := "Employer Contribution"
  const TotalLabel: string := "Total Contribution"
  const RothEmployeeLabel: string := "Employee Contribution After-Tax"
  const RothEmployerLabel: string := "Employer Contribution Traditional"
  const EffectiveCostLabel: string := "Effective Pre-Tax Cost"
  const LimitKey: string := "Contribution Limit Met?"
  const NoteKey: string := "Note"
  const NoteText: string := "Employer match contributions go into a Traditional 401(k), not the Roth 401(k)"

  /** Two labels that differ at some position give different keys. */
  lemma NamedApart(a: string, b: string, goal: RP.FinGoal, k: nat)
    requires k < |a| && k < |b| && a[k] != b[k]
    ensures Named(a, goal) != Named(b, goal)
  {
    assert Named(a, goal)[k] == a[k];
    assert Named(b, goal)[k] == b[k];
  }

  /** A goal-named key differs from a fixed key with another first letter. */
  lemma NamedApartFrom(a: string, goal: RP.FinGoal, key: string)
    requires |a| > 0 && |key| > 0 && a[0] != key[0]
    ensures Named(a, goal) != key
  {
    assert Named(a, goal)[0] == a[0];
  }

  // ---------------------------------------------------------------------------
  // Account results
  // ---------------------------------------------------------------------------

  /** `key` holds a dollar amount. */
  predicate Offers(result: AccountResult, key: string)
  {
    key in result && result[key].Amount?
  }

  /** The contribution reported under `contributionKey` is capped at the
      limit; the flag is raised exactly when the uncapped contribution, and
      so the principal, is beyond what the limit reaches, and the reported
      value is then the limit itself; otherwise the reported contribution
      reaches the principal. */
  predicate Capped(result: AccountResult, principalKey: string, contributionKey: string,
                   limit: real, rate: real, years: nat)
  {
    Offers(result, principalKey) && Offers(result, contributionKey) && LimitKey in result
    && result[contributionKey].value <= limit
    && (result[LimitKey] == Label("Yes") || result[LimitKey] == Label("No"))
    && (result[LimitKey] == Label("Yes") <==> result[principalKey].value > Finlib.Accumulate(limit, rate, years))
    && (result[LimitKey] == Label("Yes") ==> result[contributionKey].value == limit)
    && (result[LimitKey] == Label("No") ==>
          Finlib.Accumulate(result[contributionKey].value, rate, years) == result[principalKey].value)
  }

  /** The limit flag and the capped contribution of a plan. */
  function CappedContribution(plan: RP.Plan, limit: real, rate: real, years: nat): (c: (real, Metric))
    requires rate >= 0.0 && years >= 1
    requires Finlib.Accumulate(plan.contribution, rate, years) == plan.principal
    ensures c.1 == RP.LimitFlag(plan.contribution, limit)
    ensures c.0 <= limit
    ensures c.1 == Label("Yes") <==> plan.principal > Finlib.Accumulate(limit, rate, years)
    ensures c.1 == Label("Yes") ==> c.0 == limit
    ensures c.1 == Label("No") ==> c.0 == plan.contribution
  {
    Finlib.AccumulateOrder(plan.contribution, limit, rate, years);
    (Min(plan.contribution, limit), RP.LimitFlag(plan.contribution, limit))
  }

  /** The three-entry dictionary of an IRA. */
  function IraMap(principalKey: string, contributionKey: string, principal: real, contribution: real, flag: Metric): (result: AccountResult)
    requires principalKey != contributionKey && principalKey != LimitKey && contributionKey != LimitKey
    ensures result.Keys == {principalKey, contributionKey, LimitKey}
    ensures result[principalKey] == Amount(principal) && result[contributionKey] == Amount(contribution)
    ensures result[LimitKey] == flag
  {
    map[principalKey := Amount(principal), contributionKey := Amount(contribution), LimitKey := flag]
  }

  /** An IRA's result: the principal, the contribution capped at the
      limit, and the limit flag. */
  function CappedAccount(plan: RP.Plan, goal: RP.FinGoal, limit: real, rate: real, years: nat): (result: AccountResult)
    requires rate >= 0.0 && years >= 1
    requires Finlib.Accumulate(plan.contribution, rate, years) == plan.principal
    ensures result.Keys == {Named(PrincipalLabel, goal), Named(ContributionLabel, goal), LimitKey}
    ensures RP.Holds(result, Named(PrincipalLabel, goal), plan.principal)
    ensures Capped(result, Named(PrincipalLabel, goal), Named(ContributionLabel, goal), limit, rate, years)
    ensures result[LimitKey] == RP.LimitFlag(plan.contribution, limit)
  {
    NamedApart(PrincipalLabel, ContributionLabel, goal, 0);
    NamedApartFrom(PrincipalLabel, goal, LimitKey);
    NamedApartFrom(ContributionLabel, goal, LimitKey);
    var c := CappedContribution(plan, limit, rate, years);
    IraMap(Named(PrincipalLabel, goal), Named(ContributionLabel, goal), plan.principal, c.0, c.1)
  }

  /** This variant's 401k split: the employee pays the base contribution up
      to the limit, the employer matches up to the match on the limit, and
      the total is their sum. */
  function CappedSplit(base: real, limit: real, employerMatch: real): (s: RP.Split)
    ensures s.employee <= limit && s.employer <= limit * employerMatch
    ensures base <= limit ==> s.employee == base
    ensures base > limit ==> s.employee == limit
    ensures s.employer <= s.employee * employerMatch
    ensures employerMatch >= 0.0 ==> s.employer == s.employee * employerMatch
    ensures s.employer == Min(s.employee * employerMatch, limit * employerMatch)
    ensures s.total == s.employee + s.employer
  {
    var employee := Min(base, limit);
    if employerMatch >= 0.0 then
      MulMonotoneLeft(employerMatch, employee, limit);
      var employer := Min(employee * employerMatch, limit * employerMatch);
      RP.Split(employee, employer, employee + employer)
    else
      var employer := Min(employee * employerMatch, limit * employerMatch);
      RP.Split(employee, employer, employee + employer)
  }

  /** The capped split funds the principal when the base is within the
      limit, and the flag is raised otherwise. */
  predicate SplitCapped(result: AccountResult, principalKey: string, employeeKey: string, employerKey: string,
                        totalKey: string, limit: real, employerMatch: real, rate: real, years: nat)
  {
    Offers(result, principalKey) && Offers(result, employeeKey) && Offers(result, employerKey)
    && Offers(result, totalKey) && LimitKey in result
    && result[employeeKey].value <= limit
    && result[employerKey].value <= limit * employerMatch
    && result[employerKey].value <= result[employeeKey].value * employerMatch
    && (employerMatch >= 0.0 ==> result[employerKey].value == result[employeeKey].value * employerMatch)
    && result[totalKey].value == result[employeeKey].value + result[employerKey].value
    && (result[LimitKey] == Label("Yes") || result[LimitKey] == Label("No"))
    && (result[LimitKey] == Label("Yes") <==> result[principalKey].value > Finlib.Accumulate(limit, rate, years))
    && (result[LimitKey] == Label("Yes") ==> result[employeeKey].value == limit)
    && (result[LimitKey] == Label("No") ==>
          Finlib.Accumulate(result[employeeKey].value, rate, years) == result[principalKey].value)
  }

  /** The five-entry dictionary of a 401k. */
  function SplitMap(principalKey: string, employeeKey: string, employerKey: string, totalKey: string,
                    principal: real, split: RP.Split, flag: Metric): (result: AccountResult)
    requires principalKey !in {employeeKey, employerKey, totalKey, LimitKey}
    requires employeeKey !in {employerKey, totalKey, LimitKey}
    requires employerKey !in {totalKey, LimitKey} && totalKey != LimitKey
    ensures result.Keys == {principalKey, employeeKey, employerKey, totalKey, LimitKey}
    ensures result[principalKey] == Amount(principal) && result[employeeKey] == Amount(split.employee)
    ensures result[employerKey] == Amount(split.employer) && result[totalKey] == Amount(split.total)
    ensures result[LimitKey] == flag
  {
    map[principalKey := Amount(principal), employeeKey := Amount(split.employee),
        employerKey := Amount(split.employer), totalKey := Amount(split.total), LimitKey := flag]
  }

  /** The split of a plan whose base contribution reaches its principal. */
  function PlanSplit(plan: RP.Plan, limit: real, employerMatch: real, rate: real, years: nat): (s: RP.Split)
    requires rate >= 0.0 && years >= 1
    requires Finlib.Accumulate(plan.contribution, rate, years) == plan.principal
    ensures s == CappedSplit(plan.contribution, limit, employerMatch)
    ensures RP.LimitFlag(plan.contribution, limit) == Label("Yes") <==> plan.principal > Finlib.Accumulate(limit, rate, years)
    ensures RP.LimitFlag(plan.contribution, limit) == Label("Yes") ==> s.employee == limit
    ensures RP.LimitFlag(plan.contribution, limit) == Label("No") ==>
      Finlib.Accumulate(s.employee, rate, years) == plan.principal
  {
    Finlib.AccumulateOrder(plan.contribution, limit, rate, years);
    CappedSplit(plan.contribution, limit, employerMatch)
  }

  /** A 401k's result: the principal, the capped split, and the flag on the
      base contribution. `roth` selects the Roth 401k's names for the two
      shares. */
  function SplitAccount(plan: RP.Plan, goal: RP.FinGoal, roth: bool, limit: real, employerMatch: real,
                        rate: real, years: nat): (result: AccountResult)
    requires rate >= 0.0 && years >= 1
    requires Finlib.Accumulate(plan.contribution, rate, years) == plan.principal
    ensures result.Keys == {Named(PrincipalLabel, goal), Named(EmployeeLabelOf(roth), goal),
                            Named(EmployerLabelOf(roth), goal), Named(TotalLabel, goal), LimitKey}
    ensures RP.Holds(result, Named(PrincipalLabel, goal), plan.principal)
    ensures SplitCapped(result, Named(PrincipalLabel, goal), Named(EmployeeLabelOf(roth), goal),
                        Named(EmployerLabelOf(roth), goal), Named(TotalLabel, goal), limit, employerMatch, rate, years)
    ensures result[LimitKey] == RP.LimitFlag(plan.contribution, limit)
  {
    SplitKeysApart(goal, roth);
    SplitMap(Named(PrincipalLabel, goal), Named(EmployeeLabelOf(roth), goal), Named(EmployerLabelOf(roth), goal),
             Named(TotalLabel, goal), plan.principal, PlanSplit(plan, limit, employerMatch, rate, years),
             RP.LimitFlag(plan.contribution, limit))
  }

  function EmployeeLabelOf(roth: bool): string
  {
    if roth then RothEmployeeLabel else EmployeeLabel
  }

  function EmployerLabelOf(roth: bool): string
  {
    if roth then RothEmployerLabel else EmployerLabel
  }

  /** The keys of a 401k result are pairwise different. */
  lemma SplitKeysApart(goal: RP.FinGoal, roth: bool)
    ensures Named(PrincipalLabel, goal) !in {Named(EmployeeLabelOf(roth), goal), Named(EmployerLabelOf(roth), goal),
                                             Named(TotalLabel, goal), LimitKey}
    ensures Named(EmployeeLabelOf(roth), goal) !in {Named(EmployerLabelOf(roth), goal), Named(TotalLabel, goal), LimitKey}
    ensures Named(EmployerLabelOf(roth), goal) !in {Named(TotalLabel, goal), LimitKey}
    ensures Named(TotalLabel, goal) != LimitKey
  {
    var employee := EmployeeLabelOf(roth);
    var employer := EmployerLabelOf(roth);
    NamedApart(PrincipalLabel, employee, goal, 0);
    NamedApart(PrincipalLabel, employer, goal, 0);
    NamedApart(PrincipalLabel, TotalLabel, goal, 0);
    NamedApartFrom(PrincipalLabel, goal, LimitKey);
    NamedApart(employee, employer, goal, 7);
    NamedApart(employee, TotalLabel, goal, 0);
    NamedApartFrom(employee, goal, LimitKey);
    NamedApart(employer, TotalLabel, goal, 0);
    NamedApartFrom(employer, goal, LimitKey);
    NamedApartFrom(TotalLabel, goal, LimitKey);
  }

  // ---------------------------------------------------------------------------
  // Account analysers
  // ---------------------------------------------------------------------------

  /** Brokerage: the principal is sized at the growth less the 15% tax on
      withdrawals, the contribution at the full growth rate. */
  function AnalyzeBrokerageAccount(futureIncome: real, growthRate: real, inflation: real,
                                   investmentTime: nat, retirementTime: nat, goal: RP.FinGoal): (r: Result<AccountResult>)
    ensures r.Ok? <==> RP.GoalFeasible(RP.BrokerageGrowth(growthRate), inflation, goal) && growthRate > 0.0 && investmentTime >= 1
    ensures r.Err? ==>
      r.error == SizePlan(futureIncome, retirementTime, RP.BrokerageGrowth(growthRate), growthRate, inflation, investmentTime, goal).error
    ensures r.Ok? ==> r.value.Keys == {Named(PrincipalLabel, goal), Named(ContributionLabel, goal)}
    ensures r.Ok? ==> RP.Holds(r.value, Named(PrincipalLabel, goal),
      PrincipalByGoal(futureIncome, retirementTime, RP.BrokerageGrowth(growthRate), inflation, goal).value.amount)
    ensures r.Ok? ==> Offers(r.value, Named(ContributionLabel, goal))
    ensures r.Ok? ==>
      Finlib.Accumulate(r.value[Named(ContributionLabel, goal)].value, growthRate, investmentTime)
        == r.value[Named(PrincipalLabel, goal)].value
  {
    var plan :- SizePlan(futureIncome, retirementTime, RP.BrokerageGrowth(growthRate), growthRate, inflation, investmentTime, goal);
    NamedApart(PrincipalLabel, ContributionLabel, goal, 0);
    Ok(map[Named(PrincipalLabel, goal) := Amount(plan.principal), Named(ContributionLabel, goal) := Amount(plan.contribution)])
  }

  /** Traditional IRA: the principal is sized for the income grossed up by
      this variant's (no-FICA) effective rate; the contribution is capped
      at the limit. */
  function AnalyzeTraditionalIra(futureIncome: real, growthRate: real, inflation: real,
                                 investmentTime: nat, retirementTime: nat, goal: RP.FinGoal,
                                 filingStatus: string, annualContributionLimit: real): (r: Result<AccountResult>)
    ensures r.Ok? <==>
      filingStatus in Finlib.StatusKeys && RP.GoalFeasible(growthRate, inflation, goal) && growthRate > 0.0 && investmentTime >= 1
    ensures filingStatus !in Finlib.StatusKeys ==> r == Err(InvalidFilingStatus)
    ensures filingStatus in Finlib.StatusKeys && r.Err? ==>
      r.error == SizePlan(WithdrawalNeed(futureIncome, filingStatus), retirementTime, growthRate, growthRate,
                          inflation, investmentTime, goal).error
    ensures r.Ok? ==> r.value.Keys == {Named(PrincipalLabel, goal), Named(ContributionLabel, goal), LimitKey}
    ensures r.Ok? ==> RP.Holds(r.value, Named(PrincipalLabel, goal),
      PrincipalByGoal(WithdrawalNeed(futureIncome, filingStatus), retirementTime, growthRate, inflation, goal).value.amount)
    ensures r.Ok? ==> Capped(r.value, Named(PrincipalLabel, goal), Named(ContributionLabel, goal),
                             annualContributionLimit, growthRate, investmentTime)
  {
    if filingStatus !in Finlib.StatusKeys then Err(InvalidFilingStatus)
    else
      var plan :- SizePlan(WithdrawalNeed(futureIncome, filingStatus), retirementTime, growthRate, growthRate,
                           inflation, investmentTime, goal);
      Ok(CappedAccount(plan, goal, annualContributionLimit, growthRate, investmentTime))
  }

  /** The pre-tax income a traditional account must pay out so that
      `futureIncome` is left after this variant's income tax. */
  function WithdrawalNeed(futureIncome: real, filingStatus: string): (need: real)
    requires filingStatus in Finlib.StatusKeys
    ensures futureIncome >= 0.0 ==> need >= futureIncome
  {
    RP.GrossUp(futureIncome, PostTaxIncome(futureIncome, filingStatus).value.rate)
  }

  /** Roth IRA: the principal is sized for the untaxed income; the
      contribution is capped at the limit. */
  function AnalyzeRothIra(futureIncome: real, growthRate: real, inflation: real,
                          investmentTime: nat, retirementTime: nat, goal: RP.FinGoal,
                          annualContributionLimit: real): (r: Result<AccountResult>)
    ensures r.Ok? <==> RP.GoalFeasible(growthRate, inflation, goal) && growthRate > 0.0 && investmentTime >= 1
    ensures r.Err? ==>
      r.error == SizePlan(futureIncome, retirementTime, growthRate, growthRate, inflation, investmentTime, goal).error
    ensures r.Ok? ==> r.value.Keys == {Named(PrincipalLabel, goal), Named(ContributionLabel, goal), LimitKey}
    ensures r.Ok? ==> RP.Holds(r.value, Named(PrincipalLabel, goal),
      PrincipalByGoal(futureIncome, retirementTime, growthRate, inflation, goal).value.amount)
    ensures r.Ok? ==> Capped(r.value, Named(PrincipalLabel, goal), Named(ContributionLabel, goal),
                             annualContributionLimit, growthRate, investmentTime)
  {
    var plan :- SizePlan(futureIncome, retirementTime, growthRate, growthRate, inflation, investmentTime, goal);
    Ok(CappedAccount(plan, goal, annualContributionLimit, growthRate, investmentTime))
  }

  /** Traditional 401k: the grossed-up principal of the traditional IRA,
      with the base contribution split and capped; the flag is on the
      base. */
  function AnalyzeTraditional401k(futureIncome: real, growthRate: real, inflation: real,
                                  investmentTime: nat, retirementTime: nat, goal: RP.FinGoal,
                                  filingStatus: string, annualContributionLimit: real,
                                  employerMatch: real): (r: Result<AccountResult>)
    ensures r.Ok? <==>
      filingStatus in Finlib.StatusKeys && RP.GoalFeasible(growthRate, inflation, goal) && growthRate > 0.0 && investmentTime >= 1
    ensures filingStatus !in Finlib.StatusKeys ==> r == Err(InvalidFilingStatus)
    ensures filingStatus in Finlib.StatusKeys && r.Err? ==>
      r.error == SizePlan(WithdrawalNeed(futureIncome, filingStatus), retirementTime, growthRate, growthRate,
                          inflation, investmentTime, goal).error
    ensures r.Ok? ==> r.value.Keys == {Named(PrincipalLabel, goal), Named(EmployeeLabel, goal),
                                       Named(EmployerLabel, goal), Named(TotalLabel, goal), LimitKey}
    ensures r.Ok? ==> RP.Holds(r.value, Named(PrincipalLabel, goal),
      PrincipalByGoal(WithdrawalNeed(futureIncome, filingStatus), retirementTime, growthRate, inflation, goal).value.amount)
    ensures r.Ok? ==> SplitCapped(r.value, Named(PrincipalLabel, goal), Named(EmployeeLabel, goal),
                                  Named(EmployerLabel, goal), Named(TotalLabel, goal),
                                  annualContributionLimit, employerMatch, growthRate, investmentTime)
  {
    if filingStatus !in Finlib.StatusKeys then Err(InvalidFilingStatus)
    else
      var plan :- SizePlan(WithdrawalNeed(futureIncome, filingStatus), retirementTime, growthRate, growthRate,
                           inflation, investmentTime, goal);
      Ok(SplitAccount(plan, goal, false, annualContributionLimit, employerMatch, growthRate, investmentTime))
  }

  /** The Roth 401k's result: the split account, the employee share grossed
      up by `taxRate`, and the note that the match goes to a traditional
      account. */
  function RothSplitAccount(plan: RP.Plan, goal: RP.FinGoal, limit: real, employerMatch: real,
                            rate: real, years: nat, taxRate: real): (result: AccountResult)
    requires rate >= 0.0 && years >= 1 && taxRate < 1.0
    requires Finlib.Accumulate(plan.contribution, rate, years) == plan.principal
    ensures result.Keys == {Named(PrincipalLabel, goal), Named(RothEmployeeLabel, goal), Named(RothEmployerLabel, goal),
                            Named(TotalLabel, goal), Named(EffectiveCostLabel, goal), LimitKey, NoteKey}
    ensures RP.Holds(result, Named(PrincipalLabel, goal), plan.principal)
    ensures SplitCapped(result, Named(PrincipalLabel, goal), Named(RothEmployeeLabel, goal),
                        Named(RothEmployerLabel, goal), Named(TotalLabel, goal), limit, employerMatch, rate, years)
    ensures RP.Holds(result, Named(EffectiveCostLabel, goal), RP.GrossUp(result[Named(RothEmployeeLabel, goal)].value, taxRate))
    ensures result[NoteKey] == Label(NoteText)
  {
    var account := SplitAccount(plan, goal, true, limit, employerMatch, rate, years);
    var cost := Amount(RP.GrossUp(account[Named(RothEmployeeLabel, goal)].value, taxRate));
    RothKeysApart(goal);
    SplitCappedUpdate(account, Named(PrincipalLabel, goal), Named(RothEmployeeLabel, goal), Named(RothEmployerLabel, goal),
                      Named(TotalLabel, goal), limit, employerMatch, rate, years, Named(EffectiveCostLabel, goal), cost);
    var withCost := account[Named(EffectiveCostLabel, goal) := cost];
    SplitCappedUpdate(withCost, Named(PrincipalLabel, goal), Named(RothEmployeeLabel, goal), Named(RothEmployerLabel, goal),
                      Named(TotalLabel, goal), limit, employerMatch, rate, years, NoteKey, Label(NoteText));
    withCost[NoteKey := Label(NoteText)]
  }

  /** The effective-cost and note keys are apart from the split's keys and
      from each other. */
  lemma RothKeysApart(goal: RP.FinGoal)
    ensures Named(EffectiveCostLabel, goal) !in {Named(PrincipalLabel, goal), Named(RothEmployeeLabel, goal),
                                                 Named(RothEmployerLabel, goal), Named(TotalLabel, goal), LimitKey, NoteKey}
    ensures NoteKey !in {Named(PrincipalLabel, goal), Named(RothEmployeeLabel, goal), Named(RothEmployerLabel, goal),
                         Named(TotalLabel, goal), LimitKey}
  {
    NamedApart(EffectiveCostLabel, PrincipalLabel, goal, 0);
    NamedApart(EffectiveCostLabel, RothEmployeeLabel, goal, 1);
    NamedApart(EffectiveCostLabel, RothEmployerLabel, goal, 1);
    NamedApart(EffectiveCostLabel, TotalLabel, goal, 0);
    NamedApartFrom(EffectiveCostLabel, goal, LimitKey);
    NamedApartFrom(EffectiveCostLabel, goal, NoteKey);
    NamedApartFrom(PrincipalLabel, goal, NoteKey);
    NamedApartFrom(RothEmployeeLabel, goal, NoteKey);
    NamedApartFrom(RothEmployerLabel, goal, NoteKey);
    NamedApartFrom(TotalLabel, goal, NoteKey);
  }

  /** A key outside a capped split leaves it as it is. */
  lemma SplitCappedUpdate(result: AccountResult, principalKey: string, employeeKey: string, employerKey: string,
                          totalKey: string, limit: real, employerMatch: real, rate: real, years: nat,
                          key: string, value: Metric)
    requires SplitCapped(result, principalKey, employeeKey, employerKey, totalKey, limit, employerMatch, rate, years)
    requires key !in {principalKey, employeeKey, employerKey, totalKey, LimitKey}
    ensures SplitCapped(result[key := value], principalKey, employeeKey, employerKey, totalKey, limit, employerMatch, rate, years)
  {
  }

  /** Roth 401k: the untaxed principal, the capped split, the effective
      pre-tax cost of the employee's share at this variant's rate on the
      current income (computed after the contributions, so a bad filing
      status is reported only once they were sized), and the note. */
  function AnalyzeRoth401k(futureIncome: real, growthRate: real, inflation: real,
                           investmentTime: nat, retirementTime: nat, goal: RP.FinGoal,
                           filingStatus: string, annualContributionLimit: real,
                           employerMatch: real, currentIncome: real): (r: Result<AccountResult>)
    ensures r.Ok? <==>
      filingStatus in Finlib.StatusKeys && RP.GoalFeasible(growthRate, inflation, goal) && growthRate > 0.0 && investmentTime >= 1
    ensures SizePlan(futureIncome, retirementTime, growthRate, growthRate, inflation, investmentTime, goal).Err? ==>
      r == Err(SizePlan(futureIncome, retirementTime, growthRate, growthRate, inflation, investmentTime, goal).error)
    ensures (SizePlan(futureIncome, retirementTime, growthRate, growthRate, inflation, investmentTime, goal).Ok?
             && filingStatus !in Finlib.StatusKeys) ==> r == Err(InvalidFilingStatus)
    ensures r.Ok? ==> r.value.Keys == {Named(PrincipalLabel, goal), Named(RothEmployeeLabel, goal), Named(RothEmployerLabel, goal),
                                       Named(TotalLabel, goal), Named(EffectiveCostLabel, goal), LimitKey, NoteKey}
    ensures r.Ok? ==> RP.Holds(r.value, Named(PrincipalLabel, goal),
      PrincipalByGoal(futureIncome, retirementTime, growthRate, inflation, goal).value.amount)
    ensures r.Ok? ==> SplitCapped(r.value, Named(PrincipalLabel, goal), Named(RothEmployeeLabel, goal),
                                  Named(RothEmployerLabel, goal), Named(TotalLabel, goal),
                                  annualContributionLimit, employerMatch, growthRate, investmentTime)
    ensures r.Ok? ==> RP.Holds(r.value, Named(EffectiveCostLabel, goal),
      RP.GrossUp(r.value[Named(RothEmployeeLabel, goal)].value, PostTaxIncome(currentIncome, filingStatus).value.rate))
    ensures r.Ok? ==> r.value[NoteKey] == Label(NoteText)
  {
    var plan :- SizePlan(futureIncome, retirementTime, growthRate, growthRate, inflation, investmentTime, goal);
    var post :- PostTaxIncome(currentIncome, filingStatus);
    Ok(RothSplitAccount(plan, goal, annualContributionLimit, employerMatch, growthRate, investmentTime, post.rate))
  }

  // ---------------------------------------------------------------------------
  // Orchestrator and recommendation
  // ---------------------------------------------------------------------------

  /** The account types, in the order the analysis lists them. */
  const AccountNames: seq<string> := ["Brokerage Account", "Traditional IRA", "Roth IRA", "Traditional 401k", "Roth 401k"]

  /** The key whose value the recommendation compares for an account type:
      the employee's share for the two 401ks, the required contribution
      otherwise. */
  function ContributionKeyOf(accountType: string, goal: RP.FinGoal): string
  {
    if accountType == "Traditional 401k" then Named(EmployeeLabel, goal)
    else if accountType == "Roth 401k" then Named(RothEmployeeLabel, goal)
    else Named(ContributionLabel, goal)
  }

  /** The analysis's list: each account result under its account name. */
  function Listing(goal: RP.FinGoal, brokerage: AccountResult, traditionalIra: AccountResult, rothIra: AccountResult,
                   traditional401k: AccountResult, roth401k: AccountResult): (accounts: Accounts)
    requires Offers(brokerage, Named(ContributionLabel, goal)) && Offers(traditionalIra, Named(ContributionLabel, goal))
    requires Offers(rothIra, Named(ContributionLabel, goal)) && Offers(traditional401k, Named(EmployeeLabel, goal))
    requires Offers(roth401k, Named(RothEmployeeLabel, goal))
    ensures |accounts| == |AccountNames|
    ensures forall k :: 0 <= k < |accounts| ==>
      accounts[k].0 == AccountNames[k] && Offers(accounts[k].1, ContributionKeyOf(accounts[k].0, goal))
    ensures accounts[0].1 == brokerage && accounts[1].1 == traditionalIra && accounts[2].1 == rothIra
    ensures accounts[3].1 == traditional401k && accounts[4].1 == roth401k
  {
    [(AccountNames[0], brokerage), (AccountNames[1], traditionalIra), (AccountNames[2], rothIra),
     (AccountNames[3], traditional401k), (AccountNames[4], roth401k)]
  }

  /** Today's desired income in dollars of the retirement date. */
  function FutureIncome(qualityOfLife: real, investmentTime: nat): real
  {
    qualityOfLife * Pow(1.0 + I, investmentTime)
  }

  /** The five analyses of this variant, with its own default limits. The
      call fails as the current engine's does: a brokerage growth after tax
      not above inflation, no years to invest, or an unknown filing status,
      in that order. */
  function Analyses(qualityOfLife: real, growthRate: real, investmentTime: nat, retirementTime: nat,
                    goal: RP.FinGoal := RP.Sustainable, filingStatus: string := "single",
                    employerMatch: real := 0.05, annualContributionLimit401k: real := 22500.0,
                    annualContributionLimitIra: real := 6500.0): (r: Result<Accounts>)
    ensures r.Ok? <==> RP.BrokerageGrowth(growthRate) > I && investmentTime >= 1 && filingStatus in Finlib.StatusKeys
    ensures RP.BrokerageGrowth(growthRate) <= I ==> r == Err(RateOrdering)
    ensures RP.BrokerageGrowth(growthRate) > I && investmentTime == 0 ==> r == Err(ZeroDivision)
    ensures RP.BrokerageGrowth(growthRate) > I && investmentTime >= 1 && filingStatus !in Finlib.StatusKeys
        ==> r == Err(InvalidFilingStatus)
    ensures r.Ok? ==> |r.value| == |AccountNames|
    ensures r.Ok? ==> forall k :: 0 <= k < |r.value| ==>
      r.value[k].0 == AccountNames[k] && Offers(r.value[k].1, ContributionKeyOf(r.value[k].0, goal))
    ensures r.Ok? ==> r.value[0].1 == AnalyzeBrokerageAccount(FutureIncome(qualityOfLife, investmentTime), growthRate, I,
      investmentTime, retirementTime, goal).value
    ensures r.Ok? ==> r.value[1].1 == AnalyzeTraditionalIra(FutureIncome(qualityOfLife, investmentTime), growthRate, I,
      investmentTime, retirementTime, goal, filingStatus, annualContributionLimitIra).value
    ensures r.Ok? ==> r.value[2].1 == AnalyzeRothIra(FutureIncome(qualityOfLife, investmentTime), growthRate, I,
      investmentTime, retirementTime, goal, annualContributionLimitIra).value
    ensures r.Ok? ==> r.value[3].1 == AnalyzeTraditional401k(FutureIncome(qualityOfLife, investmentTime), growthRate, I,
      investmentTime, retirementTime, goal, filingStatus, annualContributionLimit401k, employerMatch).value
    ensures r.Ok? ==> r.value[4].1 == AnalyzeRoth401k(FutureIncome(qualityOfLife, investmentTime), growthRate, I,
      investmentTime, retirementTime, goal, filingStatus, annualContributionLimit401k, employerMatch, qualityOfLife).value
  {
    var futureIncome := FutureIncome(qualityOfLife, investmentTime);
    var brokerage :- AnalyzeBrokerageAccount(futureIncome, growthRate, I, investmentTime, retirementTime, goal);
    var traditionalIra :- AnalyzeTraditionalIra(futureIncome, growthRate, I, investmentTime, retirementTime, goal,
                                                filingStatus, annualContributionLimitIra);
    // Once the brokerage and traditional IRA analyses succeed, the other three cannot fail.
    var rothIra := AnalyzeRothIra(futureIncome, growthRate, I, investmentTime, retirementTime, goal,
                                  annualContributionLimitIra).value;
    var traditional401k := AnalyzeTraditional401k(futureIncome, growthRate, I, investmentTime, retirementTime, goal,
                                                  filingStatus, annualContributionLimit401k, employerMatch).value;
    var roth401k := AnalyzeRoth401k(futureIncome, growthRate, I, investmentTime, retirementTime, goal,
                                    filingStatus, annualContributionLimit401k, employerMatch, qualityOfLife).value;
    Ok(Listing(goal, brokerage, traditionalIra, rothIra, traditional401k, roth401k))
  }

  /** `calculations.get(key, inf)`: the amount under the key, or unbounded
      when the key is missing. */
  function ContributionOf(result: AccountResult, key: string): Finlib.Bound
    requires key in result ==> result[key].Amount?
  {
    if key in result then Finlib.Finite(result[key].value) else Finlib.Unbounded
  }

  /** Strictly below, with unbounded above every amount. */
  predicate Below(a: Finlib.Bound, b: Finlib.Bound)
  {
    a.Finite? && (b.Unbounded? || a.amount < b.amount)
  }

  /** Every account's comparison key, when present, holds an amount, as the
      comparison with a float needs. */
  predicate Comparable(results: Accounts, goal: RP.FinGoal)
  {
    forall k :: 0 <= k < |results| ==>
      var key := ContributionKeyOf(results[k].0, goal);
      key in results[k].1 ==> results[k].1[key].Amount?
  }

  /** A recommendation: the account type chosen and its contribution. */
  datatype Recommendation = Recommendation(accountType: string, contribution: Finlib.Bound)

  /** Each analysed account's type with the contribution the recommendation
      compares for it. */
  function Candidates(results: Accounts, goal: RP.FinGoal): (candidates: seq<(string, Finlib.Bound)>)
    requires Comparable(results, goal)
    ensures |candidates| == |results|
    ensures forall k :: 0 <= k < |results| ==>
      candidates[k] == (results[k].0, ContributionOf(results[k].1, ContributionKeyOf(results[k].0, goal)))
  {
    seq(|results|, k requires 0 <= k < |results| =>
      (results[k].0, ContributionOf(results[k].1, ContributionKeyOf(results[k].0, goal))))
  }

  /** The recommendation after the first n candidates: start from ("",
      unbounded) and take a candidate only when its contribution is
      strictly below the best so far. */
  function Pick(candidates: seq<(string, Finlib.Bound)>, n: nat): Recommendation
    requires n <= |candidates|
  {
    if n == 0 then Recommendation("", Finlib.Unbounded)
    else
      var previous := Pick(candidates, n - 1);
      if Below(candidates[n - 1].1, previous.contribution) then Recommendation(candidates[n - 1].0, candidates[n - 1].1)
      else previous
  }

  /** No candidate among the first n has a contribution below the pick. */
  lemma {:induction false} PickIsMinimal(candidates: seq<(string, Finlib.Bound)>, n: nat)
    requires n <= |candidates|
    ensures forall j :: 0 <= j < n ==> !Below(candidates[j].1, Pick(candidates, n).contribution)
  {
    if n > 0 {
      var previous := Pick(candidates, n - 1).contribution;
      var c := candidates[n - 1].1;
      PickIsMinimal(candidates, n - 1);
      forall j | 0 <= j < n - 1 && Below(c, previous)
        ensures !Below(candidates[j].1, c)
      {
        NotBelowPast(candidates[j].1, c, previous);
      }
    }
  }

  /** What is not below a bound is not below anything below it either. */
  lemma NotBelowPast(x: Finlib.Bound, a: Finlib.Bound, b: Finlib.Bound)
    requires Below(a, b) && !Below(x, b)
    ensures !Below(x, a)
  {
  }

  /** An unbounded pick has the empty name, and then every one of the first
      n candidates is unbounded. */
  lemma {:induction false} PickUnbounded(candidates: seq<(string, Finlib.Bound)>, n: nat)
    requires n <= |candidates|
    requires Pick(candidates, n).contribution.Unbounded?
    ensures Pick(candidates, n).accountType == ""
    ensures forall j :: 0 <= j < n ==> candidates[j].1.Unbounded?
  {
    if n > 0 {
      PickUnbounded(candidates, n - 1);
    }
  }

  /** The j-th candidate is the one picked after the first n: it carries
      the pick's name and contribution, and every earlier candidate is
      strictly above it. */
  predicate PickedAt(candidates: seq<(string, Finlib.Bound)>, n: nat, j: nat)
    requires j < n <= |candidates|
  {
    candidates[j] == (Pick(candidates, n).accountType, Pick(candidates, n).contribution)
    && forall i :: 0 <= i < j ==> Below(Pick(candidates, n).contribution, candidates[i].1)
  }

  /** Below a bound that another value is not below, and so below that
      value too. */
  lemma BelowPast(a: Finlib.Bound, b: Finlib.Bound, x: Finlib.Bound)
    requires Below(a, b) && !Below(x, b)
    ensures Below(a, x)
  {
  }

  /** A bounded pick is the contribution of a candidate among the first n,
      the first one with the lowest contribution: ties go to the account
      listed first. */
  lemma {:induction false} PickIsFirst(candidates: seq<(string, Finlib.Bound)>, n: nat)
    requires n <= |candidates|
    requires Pick(candidates, n).contribution.Finite?
    ensures exists j :: 0 <= j < n && PickedAt(candidates, n, j)
  {
    var previous := Pick(candidates, n - 1);
    var c := candidates[n - 1].1;
    if Below(c, previous.contribution) {
      PickIsMinimal(candidates, n - 1);
      forall i | 0 <= i < n - 1
        ensures Below(c, candidates[i].1)
      {
        BelowPast(c, previous.contribution, candidates[i].1);
      }
      assert PickedAt(candidates, n, n - 1);
    } else {
      PickIsFirst(candidates, n - 1);
      var j :| 0 <= j < n - 1 && PickedAt(candidates, n - 1, j);
      assert PickedAt(candidates, n, j);
    }
  }

  /** The selection loop over the analysed accounts. */
  method Recommend(results: Accounts, goal: RP.FinGoal) returns (best: Recommendation)
    requires Comparable(results, goal)
    ensures best == Pick(Candidates(results, goal), |results|)
  {
    var minContribution := Finlib.Unbounded;
    var minAccountType := "";
    var k := 0;
    while k < |results|
      invariant k <= |results|
      invariant Recommendation(minAccountType, minContribution) == Pick(Candidates(results, goal), k)
    {
      var (accountType, calculations) := results[k];
      var contributionKey := ContributionKeyOf(accountType, goal);
      var contribution := ContributionOf(calculations, contributionKey);
      if Below(contribution, minContribution) {
        minContribution := contribution;
        minAccountType := accountType;
      }
      k := k + 1;
    }
    best := Recommendation(minAccountType, minContribution);
  }

  /** What the analysis reports: the five results and the recommended
      account. */
  datatype Report = Report(results: Accounts, recommended: Recommendation)

  /** `analyze_retirement_options` of this variant: the five analyses, then
      the account with the lowest yearly contribution, which always exists
      once the analyses succeed. */
  method AnalyzeRetirementOptions(qualityOfLife: real, growthRate: real, investmentTime: nat, retirementTime: nat,
                                  goal: RP.FinGoal := RP.Sustainable, filingStatus: string := "single",
                                  employerMatch: real := 0.05, annualContributionLimit401k: real := 22500.0,
                                  annualContributionLimitIra: real := 6500.0) returns (r: Result<Report>)
    ensures r.Ok? <==> RP.BrokerageGrowth(growthRate) > I && investmentTime >= 1 && filingStatus in Finlib.StatusKeys
    ensures r.Err? ==> r.error == Analyses(qualityOfLife, growthRate, investmentTime, retirementTime, goal, filingStatus,
                                           employerMatch, annualContributionLimit401k, annualContributionLimitIra).error
    ensures r.Ok? ==> r.value.results == Analyses(qualityOfLife, growthRate, investmentTime, retirementTime, goal, filingStatus,
                                                  employerMatch, annualContributionLimit401k, annualContributionLimitIra).value
    ensures r.Ok? ==> Comparable(r.value.results, goal)
    ensures r.Ok? ==> r.value.recommended == Pick(Candidates(r.value.results, goal), |r.value.results|)
    ensures r.Ok? ==> r.value.recommended.contribution.Finite? && r.value.recommended.accountType in AccountNames
  {
    var results :- Analyses(qualityOfLife, growthRate, investmentTime, retirementTime, goal, filingStatus,
                            employerMatch, annualContributionLimit401k, annualContributionLimitIra);
    RecommendationFound(results, goal);
    var best := Recommend(results, goal);
    r := Ok(Report(results, best));
  }

  /** When every listed account offers its comparison key, the pick is
      bounded and names one of the listed account types. */
  lemma RecommendationFound(results: Accounts, goal: RP.FinGoal)
    requires |results| == |AccountNames|
    requires forall k :: 0 <= k < |results| ==>
      results[k].0 == AccountNames[k] && Offers(results[k].1, ContributionKeyOf(results[k].0, goal))
    ensures Comparable(results, goal)
    ensures Pick(Candidates(results, goal), |results|).contribution.Finite?
    ensures Pick(Candidates(results, goal), |results|).accountType in AccountNames
  {
    var candidates := Candidates(results, goal);
    PickIsFirst(candidates, |results|);
    var j :| 0 <= j < |results| && PickedAt(candidates, |results|, j);
    assert results[j].0 == AccountNames[j];
  }
}
