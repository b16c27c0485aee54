# Retirement projection engine, modelled in Dafny

This project models the retirement projection engine: the tax engine and the
annuity arithmetic of `finlib.py`, the goal formulas, account analysers and
orchestrator of `retirement_planner.py`, the older variant of the same engine
in `financial_planning.py`, and the down-payment and mortgage arithmetic of
`house_planner.py`. All amounts are exact `real`s. Every exponent in these
formulas is a whole number of years, so `x ** n` becomes the recursive
`Powers.Pow`. Python exceptions become `Err` values of `Common.Result`:

- `InvalidFilingStatus` for an unknown filing status;
- `InvalidRate` for a non-positive return in contribution sizing;
- `RateOrdering` for a return not above inflation;
- `ZeroDivision` for the float divisions by zero that the formulas can hit.

`float('inf')` becomes `Finlib.Bound.Unbounded`, both as the last bracket edge
and as the starting minimum of the recommendation loop. The `print` and
`warnings.warn` advisories become flags of the returned `Estimate`.

Modules:

- `Common`: the `Result`, error and result-dictionary types, plus `Min` and `Max`.
- `Powers`: `Pow` and the real-arithmetic lemmas the proofs need.
- `Finlib` (`finlib.py`), which covers three things:
  - the ordinary-income bracket walk, as the method `WalkBrackets`. It is proved equal to `BracketTax`: the sum over brackets of rate times the bracket's overlap with `[0, taxable]`. That sum has no early exit.
  - FICA, post-tax income and the capital-gains lookup.
  - The annuity pair `ConstantContribution` / `RequiredConstantContribution`. Both are tied to `Accumulate`, the value that n year-end contributions grow to.
- `RetirementPlanner` (`retirement_planner.py`):
  - The goal formulas are tied to `Drawdown`, a year-by-year simulation of the retirement. Each year the balance grows at the return and a withdrawal that grows with inflation is taken.
  - The lemmas stated over `Drawdown` prove what each goal promises. The comfortable principal is exactly used up. The generational principal keeps its real value. The nobility principal grows by NG in real terms.
- `FinancialPlanning` (`financial_planning.py`): only what the older variant does differently:
  - income tax without FICA;
  - a two-to-one goal dispatch;
  - contributions capped at the limit;
  - result keys that carry the goal's name;
  - the recommendation loop.

  The parts that are textually the same as the current engine are modelled by the same members of `Finlib` and `RetirementPlanner`: the tax tables, the bracket loop, `comfy_retirement`, `generational_wealth`, the annuity pair and the capital-gains lookup.
- `HousePlanner` (`house_planner.py`):
  - The down-payment saving.
  - The level mortgage payment, proved to pay the loan off exactly. `PaymentRetiresLoan` is stated over `Balance`, a month-by-month loan balance.

Three behaviours of the code are easy to miss:

- The current orchestrator does not cap IRA or 401k contributions at the limit. It only raises the "Contribution Limit Met?" flag, and the employer match is not capped either.
- The older orchestrator does rank the accounts: it picks the lowest contribution.
- The current Roth 401k leaves out the "Note" entry, which is commented out at `retirement_planner.py:267`. The older one includes it.

## Model

| member | source | states |
|---|---|---|
| Finlib.ParseStatus | finlib.py:103-105 | exactly the four status keys are accepted; any other string is `InvalidFilingStatus` |
| Finlib.TablesWellFormed | finlib.py:55-101 | every bracket table ascends, and only its last edge is unbounded (the `inf` sentinel) |
| Finlib.WalkBrackets | finlib.py:118-132 | the loop, with its early `break`, returns the sum over brackets of rate × overlap of `[previous edge, edge]` with `[0, taxable]` |
| Finlib.TaxAboveVanishes | finlib.py:129-130 | brackets above the one that holds the taxable income add nothing, so the `break` does not change the result |
| Finlib.CoveredStep | finlib.py:122-132 | the bracket overlaps are non-negative and add up to exactly the taxable income: no bracket is counted twice |
| Finlib.TaxUpToBounds | finlib.py:122-132 | the tax of the first n brackets lies between 0 and the top rate times the income they cover |
| Finlib.TaxUpToMonotone | finlib.py:122-132 | the bracket tax never decreases as taxable income grows |
| Finlib.TaxableIncome | finlib.py:116 | taxable income is at least 0 and at least income minus the deduction, and it is one of the two |
| Finlib.IncomeTaxBounds | finlib.py:116-132 | income tax is between 0 and 37% of taxable income |
| Finlib.IncomeTaxMonotone | finlib.py:116-132 | income tax never decreases as income grows |
| Finlib.SocialSecurityTax | finlib.py:33-34 | Social Security tax never exceeds 168600 × 0.062, and it is at most 6.2% of a non-negative income |
| Finlib.AdditionalMedicareTax | finlib.py:38-48 | the extra Medicare tax is positive exactly above the status threshold and 0 at or below it |
| Finlib.Fica | finlib.py:32-50 | FICA on a non-negative income lies between 0 and 8.55% of it |
| Finlib.CalculateFica | finlib.py:32-50 | the accumulating computation equals `Fica`; an unknown status fails at the threshold lookup |
| Finlib.FicaMonotone | finlib.py:32-50 | FICA never decreases as income grows |
| Finlib.Settle | finlib.py:134-136 | net is income minus what is owed; the rate is in [0, 1), equals owed/income for positive income (net = income × (1 − rate)), and is 0 otherwise |
| Finlib.OwedBelowIncome | finlib.py:134-136 | income tax plus FICA is below any positive income, which keeps the `1 − rate` divisors non-zero |
| Finlib.Taxes | finlib.py:116-136 | net = income − income tax − FICA; the rate is (income tax + FICA) / income for positive income and 0 when income ≤ 0, always in [0, 1); net ≤ income for non-negative income |
| Finlib.PostTaxIncome | finlib.py:103-138 | fails exactly for an unknown status; otherwise the rate is in [0, 1) |
| Finlib.CalculatePostTaxIncome | finlib.py:53-138 | the loop-based computation returns `PostTaxIncome` for every input, including the error |
| Finlib.ZeroIncomeUntaxed | finlib.py:134-136 | a zero income gives (0, 0) for every known status |
| Finlib.TaxesMonotone | finlib.py:116-136 | for 0 ≤ a ≤ b, income tax and FICA are non-negative and never lower at b |
| Finlib.FirstApplicable | finlib.py:182-184 | the index found is the first bracket whose threshold is at least the total |
| Finlib.FirstApplicableFound | finlib.py:182-187 | a threshold is always found, so the top-rate fallback at line 187 is unreachable |
| Finlib.CapitalGainsTax | finlib.py:177-187 | fails exactly for an unknown status; otherwise it is the whole gain times the rate of the first threshold ≥ regular income + gain; the older copy at financial_planning.py:179-224 is the same |
| Finlib.SingleCapitalGainsRates | finlib.py:155-159 | single filers pay 0 when the total is at most 44625, and 20% of the gain above 492300 |
| Finlib.CalculateCapitalGainsTax | finlib.py:141-187 | the search loop with early return returns `CapitalGainsTax` |
| Finlib.AnnuityClosedForm | finlib.py:13 | the year-end annuity factor times r is (1 + r)^n − 1 |
| Finlib.AccumulateClosedForm | finlib.py:13 | the value of n year-end contributions c, times r, is c × ((1 + r)^n − 1) |
| Finlib.AccumulateLinear | finlib.py:13 | accumulated value is linear in the contribution |
| Finlib.AnnuityAtLeastOne | finlib.py:13 | one year or more of contributions at a non-negative rate grows each contribution at least to itself |
| Finlib.AccumulateOrder | finlib.py:13 | with r ≥ 0 and n ≥ 1, a larger contribution accumulates to strictly more, and conversely |
| Finlib.ConstantContribution | finlib.py:1-13 | fails (division by zero) exactly when R = 0; otherwise it is the value of T year-end contributions C |
| Finlib.RequiredConstantContribution | finlib.py:15-30 | fails with `InvalidRate` when r ≤ 0 and divides by zero when n = 0; otherwise its contribution accumulates to exactly the target; the older copy at financial_planning.py:78-93 is the same |
| Finlib.ContributionRoundTrip | finlib.py:1-30 | for r > 0 and n ≥ 1, `constant_contribution` of the required contribution gives back the target |
| RetirementPlanner.ComfyRetirement | retirement_planner.py:51-71 | fails when r ≤ i (or on 1 + r = 0); a withdrawal growing with inflation leaves exactly 0 after the retirement duration; the older copy at financial_planning.py:31-51 is the same |
| RetirementPlanner.SupplementedRetirement | retirement_planner.py:26-48 | equals the comfortable principal for 40% of the income, which it likewise uses up |
| RetirementPlanner.GenerationalWealth | retirement_planner.py:74-97 | fails when r ≤ i; principal × (r − i) = income; the warning flag is raised exactly when r − i < 0.01 and does not change the value; the older copy at financial_planning.py:53-76 is the same |
| RetirementPlanner.NobilityWealth | retirement_planner.py:100-129 | fails only when r ≤ i; when r ≤ i + 0.02 it returns the generational value flagged as a fallback; otherwise principal × (r − i − 0.02) = income |
| RetirementPlanner.PrincipalByGoal | retirement_planner.py:131-141 | each goal goes to its own formula; it succeeds exactly when the rates suit the goal |
| RetirementPlanner.ComfyDepletes | retirement_planner.py:70-71 | a balance of withdrawal × the finite-horizon factor is used up exactly by the last withdrawal |
| RetirementPlanner.GenerationalKeepsValue | retirement_planner.py:97 | the perpetuity's balance after k years is the principal × (1 + i)^k: its real value never falls |
| RetirementPlanner.NobilityGrows | retirement_planner.py:129 | the nobility principal's balance after k years is at least principal × (1 + i + 0.02)^k |
| RetirementPlanner.ComfyFactorBounds | retirement_planner.py:70-71 | for r > i > −1 the finite-horizon factor is ≥ 0, > 0 for a duration ≥ 1, and below 1/(r − i) |
| RetirementPlanner.ComfyBelowGenerational | retirement_planner.py:68-97 | for income > 0, r > i > −1 and a duration ≥ 1: 0 < comfortable principal < generational principal |
| RetirementPlanner.NobilityAtLeastGenerational | retirement_planner.py:119-129 | for income ≥ 0 the nobility principal is never below the generational one |
| RetirementPlanner.PrincipalScales | retirement_planner.py:131-141 | every goal's principal is the income times the principal for a unit income, with the same flags |
| RetirementPlanner.SupplementedScales | retirement_planner.py:26-48 | the supplemented principal is linear in the income |
| RetirementPlanner.GenerationalScales | retirement_planner.py:74-97 | the generational principal is linear in the income |
| RetirementPlanner.NobilityScales | retirement_planner.py:100-129 | the nobility principal is linear in the income |
| RetirementPlanner.ComfyScales | retirement_planner.py:51-71 | the comfortable principal is linear in the income |
| RetirementPlanner.UnitPrincipalNonNegative | retirement_planner.py:131-141 | a unit income never needs a negative principal |
| RetirementPlanner.PrincipalMonotone | retirement_planner.py:131-141 | a larger income never needs a smaller principal, for any goal |
| RetirementPlanner.LimitFlag | retirement_planner.py:183 | the flag is "Yes" exactly when the contribution exceeds the limit, and "No" otherwise |
| RetirementPlanner.BrokerageGrowth | retirement_planner.py:148-150 | the after-tax brokerage growth is positive and below a positive growth rate |
| RetirementPlanner.GrossUp | retirement_planner.py:173-176 | the grossed-up income times (1 − rate) is the income, and it is at least the income for a rate ≥ 0 |
| RetirementPlanner.GrossUpAtLeast | retirement_planner.py:257 | dividing a non-negative cost by (1 − rate), with the rate in [0, 1), never lowers it |
| RetirementPlanner.SizePlan | retirement_planner.py:152-156 | the principal is the goal's formula; the contribution accumulates to it; the errors are those of the formula, then of contribution sizing |
| RetirementPlanner.PlanFlag | retirement_planner.py:183 | the flag is "Yes" exactly when the principal is more than the limit can accumulate to |
| RetirementPlanner.FlaggedAccount | retirement_planner.py:180-184 | the three IRA keys; the principal; the uncapped contribution, which funds the principal; the flag on the contribution |
| RetirementPlanner.MatchedSplit | retirement_planner.py:222-224 | employee = base × (1 − match), employer = employee × match, total = their sum |
| RetirementPlanner.ShareFunds | retirement_planner.py:222 | paying the share s of the base contribution accumulates to the share s of the principal |
| RetirementPlanner.MatchedSplitFunds | retirement_planner.py:218-224 | the employee's contributions accumulate to (1 − match) of the principal |
| RetirementPlanner.SplitMap | retirement_planner.py:226-233 | the six 401k keys with the split's amounts; the yearly contribution is the employee's |
| RetirementPlanner.SplitAccount | retirement_planner.py:218-233 | the split account holds the principal and the match split, and its flag compares the base with the limit |
| RetirementPlanner.MatchSplitUpdate | retirement_planner.py:259-266 | adding a key outside the split keeps the split |
| RetirementPlanner.RothSplitAccount | retirement_planner.py:245-266 | the Roth split account, plus the effective pre-tax cost = employee contribution grossed up by the tax rate |
| RetirementPlanner.AnalyzeBrokerageAccount | retirement_planner.py:144-161 | exactly the two keys; the principal is sized at growth × 0.85; the contribution at the full growth rate accumulates to it; it fails exactly as sizing does |
| RetirementPlanner.WithdrawalNeed | retirement_planner.py:169-175 | the grossed-up income a traditional account must pay out is at least the income |
| RetirementPlanner.AnalyzeTraditionalIra | retirement_planner.py:164-184 | an unknown status fails first; the principal is for the grossed-up income; the contribution is uncapped and funds it; the flag is "Yes" exactly when it exceeds the limit |
| RetirementPlanner.AnalyzeRothIra | retirement_planner.py:187-202 | the principal is for the untaxed income; the contribution is uncapped and funds it; the flag is "Yes" exactly when it exceeds the limit |
| RetirementPlanner.AnalyzeTraditional401k | retirement_planner.py:205-233 | the status is checked first; the principal is for the grossed-up income; the match split; the flag is on the base contribution |
| RetirementPlanner.AnalyzeRoth401k | retirement_planner.py:236-268 | the plan is sized before the status is checked; the match split; the effective cost is the employee share grossed up by the current income's rate |
| RetirementPlanner.TraditionalIraNeedsMore | retirement_planner.py:164-202 | for a non-negative income, the traditional IRA's principal is at least the Roth IRA's |
| RetirementPlanner.Listing | retirement_planner.py:297-317 | the five account names in order, each with its analyser's result |
| RetirementPlanner.AnalyzeRetirementOptions | retirement_planner.py:271-342 | it fails exactly for an after-tax brokerage growth ≤ 3%, no years to invest, or an unknown status, in that order; otherwise the five entries, in order, are exactly the results of the five analysers, each called with the income inflated at 3% for the years to retirement, its own limit (the IRA limit for both IRAs, the 401k limit and the match for both 401ks), the filing status where it takes one, and today's income for the Roth 401k's effective cost; each reports a principal and a contribution |
| FinancialPlanning.Taxes | financial_planning.py:159-175 | net = income − income tax, with no FICA; the rate is in [0, 1), equals tax/income for positive income, and is 0 otherwise |
| FinancialPlanning.PostTaxIncome | financial_planning.py:145-177 | fails exactly for an unknown status; otherwise it gives this variant's no-FICA figures |
| FinancialPlanning.CalculatePostTaxIncome | financial_planning.py:95-177 | the bracket loop returns `PostTaxIncome` for every input |
| FinancialPlanning.SettleOrder | financial_planning.py:174-175 | paying less out of the same income leaves more net income at a lower rate |
| FinancialPlanning.CurrentOwed | finlib.py:134-136 | the current engine's tax plus FICA is non-negative and below a positive income |
| FinancialPlanning.NetAtLeastCurrent | financial_planning.py:174-175 | for income ≥ 0, this variant's net income is at least the current engine's and its rate at most the current one |
| FinancialPlanning.PrincipalByGoal | financial_planning.py:226-237 | supplemented and sustainable use the comfortable formula; generational and nobility use the perpetuity |
| FinancialPlanning.DispatchCollapses | financial_planning.py:230-235 | every goal gets the current engine's sustainable or generational principal |
| FinancialPlanning.SupplementedNeedsMore | financial_planning.py:230-232 | a supplemented goal here needs at least the current engine's supplemented principal (the whole income, not 40%) |
| FinancialPlanning.NobilityNeedsLess | financial_planning.py:233-235 | a nobility goal here never falls back and needs no more than the current engine's nobility principal |
| FinancialPlanning.PrincipalMonotone | financial_planning.py:226-237 | a larger income never needs a smaller principal |
| FinancialPlanning.SizePlan | financial_planning.py:264-268 | the principal is the older dispatch's; the contribution accumulates to it; the errors follow the formula, then contribution sizing |
| FinancialPlanning.NamedApart | financial_planning.py:252-254 | labels that differ give different goal-named keys |
| FinancialPlanning.CappedContribution | financial_planning.py:273-274 | the reported value is min(required, limit) ≤ limit; the flag is "Yes" exactly when the principal exceeds what the limit reaches, and then the value is the limit; otherwise it is the required contribution |
| FinancialPlanning.CappedAccount | financial_planning.py:270-275 | the three goal-named IRA keys with the principal, the capped contribution and the flag |
| FinancialPlanning.CappedSplit | financial_planning.py:308-311 | employee = min(base, limit) ≤ limit; employer = min(employee × match, limit × match) ≤ both; employer = employee × match for a non-negative match; total = their sum |
| FinancialPlanning.PlanSplit | financial_planning.py:308-319 | the flag is "Yes" exactly when the principal exceeds what the limit reaches, and then the employee pays the limit; otherwise the employee's contributions fund the principal |
| FinancialPlanning.SplitAccount | financial_planning.py:313-319 | the five goal-named 401k keys with the capped split, and the flag on the base contribution |
| FinancialPlanning.SplitKeysApart | financial_planning.py:313-319 | the five 401k keys are pairwise different |
| FinancialPlanning.RothKeysApart | financial_planning.py:344-353 | the effective-cost and note keys differ from the split's keys |
| FinancialPlanning.SplitCappedUpdate | financial_planning.py:344-353 | adding a key outside the capped split keeps it |
| FinancialPlanning.RothSplitAccount | financial_planning.py:334-353 | the capped split; the effective cost = employee share / (1 − rate); the note that the match goes to a traditional account |
| FinancialPlanning.AnalyzeBrokerageAccount | financial_planning.py:239-255 | the two goal-named keys; the principal is at growth × 0.85 through the older dispatch; the contribution at full growth accumulates to it |
| FinancialPlanning.WithdrawalNeed | financial_planning.py:264-266 | the no-FICA grossed-up income is at least the income |
| FinancialPlanning.AnalyzeTraditionalIra | financial_planning.py:257-275 | the status is checked first; the principal is for the no-FICA grossed-up income; the contribution is capped and flagged |
| FinancialPlanning.AnalyzeRothIra | financial_planning.py:277-292 | the principal is for the untaxed income; the contribution is capped and flagged |
| FinancialPlanning.AnalyzeTraditional401k | financial_planning.py:294-320 | the status is checked first; the grossed-up principal; the capped split; the flag is on the base contribution |
| FinancialPlanning.AnalyzeRoth401k | financial_planning.py:322-353 | the plan is sized before the status is checked; the capped split; the effective cost at the no-FICA rate on current income; the note |
| FinancialPlanning.Listing | financial_planning.py:392-412 | the five account names in order, each offering the key the recommendation compares |
| FinancialPlanning.Analyses | financial_planning.py:355-412 | with the older defaults (22500 and 6500) it fails exactly as the current orchestrator does; otherwise the five entries, in order, are exactly the results of this variant's five analysers, each called with the inflated income, its own limit, the match and status where they apply, and today's income for the Roth 401k; every entry offers its comparison key |
| FinancialPlanning.Candidates | financial_planning.py:443-452 | each account's name with the amount under its comparison key, or unbounded when the key is missing |
| FinancialPlanning.PickIsMinimal | financial_planning.py:441-456 | no account has a contribution strictly below the one picked |
| FinancialPlanning.PickUnbounded | financial_planning.py:441-456 | an unbounded pick keeps the empty name, and then no account had its key |
| FinancialPlanning.PickIsFirst | financial_planning.py:454-456 | a bounded pick is the contribution of the first account that attains it; every earlier account is strictly above it, so ties go to the first |
| FinancialPlanning.NotBelowPast | financial_planning.py:454 | what is not below the running minimum is not below a smaller one either |
| FinancialPlanning.BelowPast | financial_planning.py:454 | a value below the running minimum is below everything that was not below that minimum |
| FinancialPlanning.Recommend | financial_planning.py:441-456 | the loop returns the pick over all accounts |
| FinancialPlanning.AnalyzeRetirementOptions | financial_planning.py:355-458 | fails exactly as the analyses do; otherwise it reports the five results and the pick, which is bounded and names one of the five accounts |
| FinancialPlanning.RecommendationFound | financial_planning.py:441-458 | when every account offers its key, the pick is bounded and names one of the accounts |
| HousePlanner.CalculateAnnualSaving | house_planner.py:13-16 | fails as sizing does (rate ≤ 0, no years); the yearly saving accumulates to exactly 20% of the price, and the monthly figure is a twelfth of it |
| HousePlanner.SavingMonotone | house_planner.py:13-16 | a dearer house needs a larger yearly saving, strictly for a strictly dearer one |
| HousePlanner.CalculateMonthlyPayment | house_planner.py:6-11 | fails exactly when 1 + m = 0 or (1 + m)^n = 1, the float divisions by zero |
| HousePlanner.NoPaymentWithoutInterestOrTerm | house_planner.py:6-11 | a zero rate or a zero term divides by zero |
| HousePlanner.BalanceClosedForm | house_planner.py:6-11 | the loan balance after k months is principal × (1 + m)^k minus the payments grown to month k |
| HousePlanner.PaymentRetiresLoan | house_planner.py:6-11 | after n monthly payments of the computed amount the loan balance is exactly 0 |
| HousePlanner.LevelPaymentBalances | house_planner.py:9-10 | payment × (1 − (1 + m)^−n) = principal × m makes the grown principal equal the grown payments |
| HousePlanner.PaymentCoversInterest | house_planner.py:6-11 | for a positive rate and term the payment is defined, and on a positive loan it exceeds the first month's interest |

## Left out

- The `__main__` blocks are not modelled:
  - `retirement_planner.py:346-400`, with its pandas tables and plots;
  - `financial_planning.py:461-464`;
  - `house_planner.py:19-36`.

  They are scripts with fixed inputs and printing.
- `generate_report.py` and `budget_planner.py` are not part of this model. They are plotting, file output, a Typst subprocess and a printing script.
- Console output is not modelled:
  - the parameter banner, result tables and recommendation line at `financial_planning.py:377-438` and `458`;
  - the debug print at `retirement_planner.py:118`.

  The warnings at `retirement_planner.py:94-95` and `120-121` are kept only as the `closeRates` and `fellBack` flags of `Estimate`.
- FinancialPlanning.AnalyzeRetirementOptions returns the results and the recommendation instead of printing them. The Python function prints them and returns `None`.
- Floating-point rounding and overflow are not modelled: the arithmetic is exact over `real`. An IEEE infinity or NaN from a huge exponent does not arise.
- Years and durations are `nat`. Python would also accept negative ints, which make `(1 + r) ** n` a fraction.
- The unreachable `else` of `financial_planning.py:236-237` has no counterpart: the goal is a closed datatype.
- The constant `T = 0.20` is unused. The constants `R`, `T1`, `T2` and `INTEREST_RATE` are used only by the `__main__` blocks. `HousePlanner.InterestRate` is declared but unused.
- CalculateFica: an unknown status is reported as `InvalidFilingStatus`, where Python raises a `KeyError` rather than a `ValueError`.
- FinancialPlanning.Recommend requires every present comparison key to hold an amount. Comparing a string with a float would raise a `TypeError` in Python, and the analysers never store a string under those keys.
- Finlib.PostTaxIncome states only the error case and the rate bound in its own contract. The net income and the rate, (income tax + FICA) / income, are stated by `Finlib.Taxes`, which it returns.
