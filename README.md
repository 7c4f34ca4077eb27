# Tesorin "first step" planner — a verified model of its rules

Tesorin is a personal-finance planner. The user enters monthly income,
expenses, savings and debt, picks a goal, and gets rule-of-thumb guidance. This
project models the planner's rules in Dafny and proves properties of them:

- **Planning rule engine** (`logic.dfy`, module `Logic`). It covers cashflow,
  net worth, the savings rate, the emergency-fund target, the savings-rate
  band table, the monthly contribution to a goal, and the monthly allocation
  of a recommended saving across the emergency, investing and debt buckets.
  All of these are pure functions over `real` amounts. A country is the code
  the user picked, and only `"IN"` is treated specially.
- **Wallet statistics** (`wealthflow.dfy`, module `Wealthflow`). This covers
  the find-first wallet lookup, the fallback to the first wallet, the
  date-window filter, and the balance, income and expense sums. Adding a
  transaction is a method on a `Wallet` object, which appends to its list in
  place and recomputes the statistics. Dates are integers that keep the
  calendar order.
- **Goal-plan bookkeeping of the next-step screen** (`nextstep.dfy`, module
  `NextStep`). It covers the default nickname, the monthly-amount and target
  fallbacks, and the gap and months-to-buffer figures. It also covers the
  tracked-goal upsert over the list of plans and the profile's goal names,
  the emergency-goal lookup and the "other goals" list, the clamped progress
  percentage, and top-ups. The session's plan list and goal names are fields
  of a `GoalBook` object, and its methods update them in place. Pure
  functions over sequences specify those methods, and the lemmas are proved
  about those functions.
- `text.dfy` (module `Text`) holds the string operations the rules need: ASCII
  lower-casing, substring search, and decimal formatting of a number with its
  round trip. `wrappers.dfy` holds `Option`.

The source's quirks are kept as written:

- `DebtPriorityShare` (0.2 normally) is never used by the allocation, which
  gives other debt a 0.3 share. `Logic.AllocationDebtShareVersusPriority`
  states the difference.
- In `monthly_goal_contribution`, the `months <= 0` guard is kept in
  `Logic.MonthlyGoalContribution`. `Logic.GoalMonths` proves that the guard
  never fires.
- When the list of wallets is empty, the wallet fallback `... or wallets[0]`
  fails in the source. `Wealthflow.SelectWallet` returns `null` in that case.

The allocation starts from the shares 0.4/0.3/0.3 (emergency, investing,
debt). With no debt the debt share moves to investing; with high-interest
debt the shares become 0.3/0.3/0.4.

## Model

| member | source | states |
|---|---|---|
| Logic.Cashflow | logic.py:5-6 | cashflow plus expenses gives back the income; the cashflow is negative exactly when expenses exceed income |
| Logic.NetWorth | logic.py:9-10 | net worth plus debt gives back the savings; net worth is negative exactly when debt exceeds savings |
| Logic.SavingsRate | logic.py:13-16 | 0 when income ≤ 0; otherwise the rate times income equals 100 times the cashflow |
| Logic.SavingsRateOfCashflow | logic.py:13-16 | with income > 0 and expenses ≥ 0, the rate of the cashflow is at most 100, and non-negative exactly when expenses ≤ income |
| Logic.EmergencyFundTarget | logic.py:19-29 | zero exactly when expenses ≤ 0; always between 0 and three months of expenses; when expenses are positive it is one month exactly when there is debt, and three months exactly when there is none |
| Logic.EmergencyTargetDebtThird | logic.py:25-29 | with debt, the target is a third of the debt-free target |
| Logic.EmergencyTargetMonotone | logic.py:25-29 | higher expenses never give a lower target |
| Logic.BracketThresholds | logic.py:40-53 | the two income thresholds are positive and increasing: 30000/60000 for "IN", 3000/6000 otherwise |
| Logic.SavingsRateTarget | logic.py:32-53 | (0,0) exactly when income ≤ 0; for positive income 0 < low < high, following the step brackets: (10,15), then (15,25), then (25,40) for "IN" or (25,35) otherwise |
| Logic.SavingsRateTargetMonotone | logic.py:37-53 | a higher income never gives a lower low or high rate |
| Logic.SavingsRateTargetScaled | logic.py:40-53 | the "IN" brackets are the other brackets at ten times the income; the two agree below the top bracket |
| Logic.SavingsRateTargetSamples | logic.py:37-46 | IN at 0, 29999, 30000 and 60000 gives (0,0), (10,15), (15,25) and (25,40) |
| Logic.DebtPriorityShare | logic.py:56-62 | 0.4 exactly when debt is high-interest, 0.2 exactly when it is not; always strictly between 0 and 1 |
| Logic.DebtPriorityShareIgnoresCountry | logic.py:56-62 | the share does not depend on the country |
| Logic.GoalMonths | logic.py:70-71 | the horizon is a positive multiple of 12; it is 12 for a target year that is past, current or next, and 12 months per year beyond that, so the source's `months <= 0` guard never fires |
| Logic.MonthlyGoalContribution | logic.py:65-74 | paying the contribution for every month of the horizon reaches the target exactly; a target due within a year gives target/12; for a non-negative target it lies between 0 and target/12 |
| Logic.MonthlyGoalContributionSample | logic.py:65-74 | 12000 due next year is 1000 a month |
| Logic.MonthlyGoalContributionLaterIsLower | logic.py:70-74 | for a non-negative target, a later target year never raises the monthly amount |
| Logic.SplitShares | logic.py:109-122 | the shares add up to 1 and are non-negative; no debt gives 0.4/0.6/0, high-interest debt 0.3/0.3/0.4, other debt 0.4/0.3/0.3; the debt share is 0 exactly when there is no debt |
| Logic.TargetSaving | logic.py:104-106 | 0 for non-positive income; otherwise between 12.5% and 32.5% of income (the band midpoints) |
| Logic.AllocateMonthlyPlan | logic.py:77-134 | cashflow is income − expenses; the three buckets add up to the recommended saving and are non-negative; 0 ≤ recommended saving ≤ max(cashflow, 0); non-positive cashflow gives an all-zero plan; otherwise recommended saving = min(cashflow, target saving) |
| Logic.AllocationBuckets | logic.py:124-126 | each bucket is the recommended saving times its share from `SplitShares` |
| Logic.AllocationFlagNeedsDebt | logic.py:115-122 | without debt, the high-interest flag does not change the plan |
| Logic.AllocationMeetsBandMidpoint | logic.py:104-107 | when cashflow covers the target saving, the plan's saving rate is exactly the band's midpoint |
| Logic.RateOfPercentage | logic.py:13-16 | the savings rate of `rate`% of a positive income is `rate` |
| Logic.AllocationDebtShareVersusPriority | logic.py:56-62 | with high-interest debt the debt bucket is `DebtPriorityShare` of the saving; with other debt it is 0.1 more than that share (0.3, not 0.2) |
| Logic.AllocationSample | logic.py:94-134 | income 50000 (IN), expenses 30000, no debt: cashflow 20000, saving 10000, buckets 4000/6000/0; emergency target 90000 |
| Wealthflow.InPeriod | wealthflow.py:19-23 | every kept transaction is in the window and from the input; every input transaction in the window is kept; empty when start > end or when no transaction falls in the window |
| Wealthflow.InPeriodConcat | wealthflow.py:19-23 | filtering a concatenation is the concatenation of the filtered parts, so the original order is kept |
| Wealthflow.Balance | wealthflow.py:24 | the sum of all amounts is ≥ 0 when every amount is income and ≤ 0 when every amount is an expense |
| Wealthflow.Income | wealthflow.py:25 | the sum of positive amounts is ≥ 0, and 0 when no amount is positive |
| Wealthflow.Expenses | wealthflow.py:26 | the sum of negated negative amounts is ≥ 0, and 0 when no amount is negative |
| Wealthflow.BalanceIsIncomeLessExpenses | wealthflow.py:24-26 | the sum of all amounts equals income less expenses |
| Wealthflow.ComputeWalletStats | wealthflow.py:18-34 | balance = income − expenses; change = balance; income and expenses are ≥ 0; the listed transactions are exactly those in the window; a window holding no transaction (including start > end) gives all-zero statistics, and `AppendStats` fixes every step from there |
| Wealthflow.AppendStats | wealthflow.py:111-121 | appending a transaction inside the window lists it last and moves the balance by its amount, and income or expenses by its positive or negative part; outside the window nothing changes |
| Wealthflow.ZeroAmountCountedNotSummed | wealthflow.py:24-26 | a zero-amount transaction in the window is listed but leaves income, expenses and balance unchanged |
| Wealthflow.NewTransaction | wealthflow.py:113-118 | the stored category is never empty (an empty one becomes "General"); date, note and amount are kept |
| Wealthflow.Wallet.AddTransaction | wealthflow.py:111-121 | the list is the old list plus the new record; the statistics returned are those of the new list; a transaction in the period raises the balance by its amount and the count by one, and one outside leaves the statistics unchanged |
| Wealthflow.GetWalletById | wealthflow.py:11-15 | returns the first wallet with the id, or null exactly when no wallet has that id |
| Wealthflow.SelectWallet | wealthflow.py:53 | returns the first wallet with the selected id when one exists, otherwise the first wallet of the list; null exactly when there are no wallets |
| NextStep.DefaultNickname | nextstep.py:91-101 | a saved non-empty nickname is kept; otherwise the nickname follows keyword precedence (emergency fund, debt, investing, specific purchase), each result holding exactly when its keyword matches and no earlier one does, and it is empty when none matches |
| NextStep.DefaultNicknameEmergencyFundOption | nextstep.py:49-55 | the form label "Build or top up my emergency fund" gives "Emergency fund" |
| NextStep.DefaultNicknameDebtOption | nextstep.py:49-55 | "Clean up high-interest debt" gives "Debt payoff" |
| NextStep.DefaultNicknameInvestingOption | nextstep.py:49-55 | "Start long-term investing" gives "Long-term investing" |
| NextStep.DefaultNicknamePurchaseOption | nextstep.py:49-55 | "Save for a specific purchase" gives "Big purchase" |
| NextStep.DefaultNicknameUnsureOption | nextstep.py:49-55 | "I’m not sure yet" gives no nickname |
| NextStep.TargetFallback | nextstep.py:170-172 | a non-zero saved target is kept; only a zero (or missing) target of a goal that mentions "emergency fund" becomes the emergency-fund target |
| NextStep.FormMonthlyDefault | nextstep.py:134-136 | the form's monthly default is never negative; a missing value gives max(cashflow, 0) and a negative one gives 0 |
| NextStep.PlanMonthly | nextstep.py:166-168 | a positive saved amount is kept; a non-positive one becomes 0.3·cashflow only when cashflow > 0; with a surplus the result is always positive |
| NextStep.BufferGap | nextstep.py:175 | the gap is ≥ 0 and ≥ target − savings; it is 0 exactly when savings reach the target; a positive gap is exactly what is missing |
| NextStep.MonthsToBuffer | nextstep.py:176 | defined exactly when the monthly amount is positive; then that many months at that amount close the gap |
| NextStep.TrackedGoalName | nextstep.py:252 | the nickname when it is non-empty, the goal label otherwise; non-empty whenever the label is |
| NextStep.TrackedGoalFields | nextstep.py:251-257 | the upserted record takes its name, target, monthly amount, kind, timeframe and why from the answers by the rules above |
| NextStep.ProgressPct | nextstep.py:304-313 | always 0..100; 0 without a positive target or with nothing saved; 100 once the target is reached; otherwise the truncated percentage |
| NextStep.ProgressMonotone | nextstep.py:337-342 | saving more never shows less progress |
| NextStep.EmergencyGoalIndex | nextstep.py:291-299 | the first plan whose lower-cased name or kind contains "emergency", or none exactly when no plan does |
| NextStep.OtherGoalIndices | nextstep.py:333-335 | every plan index except the emergency goal's, in increasing order |
| NextStep.FirstNamed | nextstep.py:258-260 | the first plan with the name, or none exactly when no plan has it |
| NextStep.GoalId | nextstep.py:274 | the id is "g" followed by digits, without a leading zero, that read back as the number |
| NextStep.GoalIdInjective | nextstep.py:274 | different numbers give different ids |
| NextStep.Refreshed | nextstep.py:262-270 | an updated plan keeps its id, name and saved amount and takes the new target, monthly target, timeframe, why and kind |
| NextStep.NewPlan | nextstep.py:273-282 | a new plan has id "g{n+1}", saved 0.0 and the given fields, and refreshing it with the same fields changes nothing |
| NextStep.UpsertedPlans | nextstep.py:257-283 | with a match, only the first match is refreshed and the length is unchanged; without one, exactly one new plan is appended after the unchanged old plans; afterwards a plan with the name exists |
| NextStep.UpsertFindsFields | nextstep.py:257-283 | after the upsert, the first plan with the name is the refreshed or appended one and holds the given fields |
| NextStep.UpsertIdempotent | nextstep.py:257-283 | upserting the same goal twice gives the same list as upserting it once |
| NextStep.UpsertKeepsNamesDistinct | nextstep.py:258-283 | if plan names were distinct, they stay distinct |
| NextStep.IdsByPositionDistinct | nextstep.py:274 | ids of the form "g{position}" are pairwise different |
| NextStep.UpsertKeepsIdsByPosition | nextstep.py:274-283 | if every id is "g{position}", that still holds after the upsert, so a new id never repeats an earlier one |
| NextStep.WithGoalName | nextstep.py:284-285 | the name is present afterwards; it occurs as often as before if it was there and once otherwise; other names keep their counts; old entries keep their places |
| NextStep.ToppedUp | nextstep.py:326 | one plan's saved amount rises by the amount; every other field and every other plan is unchanged |
| NextStep.TopUpTotal | nextstep.py:361 | a top-up raises the total saved across plans by exactly the amount |
| NextStep.TopUpKeepsInvariants | nextstep.py:326 | a top-up keeps names distinct and ids by position |
| NextStep.GoalBook.Upsert | nextstep.py:257-286 | the plans become `UpsertedPlans` of the old plans; the update branch leaves the profile's goals alone; the insert branch adds the name with `WithGoalName`; distinct names and position ids are kept |
| NextStep.GoalBook.AddTrackedGoal | nextstep.py:251-286 | upserts the record `TrackedGoalFields` builds from the answers and the snapshot |
| NextStep.GoalBook.TopUp | nextstep.py:361 | the plans become `ToppedUp` of the old plans; the goal names are unchanged; the total saved rises by the amount |
| Text.ContainsIffOccurs | nextstep.py:94 | substring search succeeds exactly when the needle occurs at some position |
| Text.DecimalRoundTrip | nextstep.py:274 | reading a formatted number back gives the number |

## Left out

- All rendering: Streamlit widgets, forms, columns, captions, currency symbols,
  CSS, charts, reruns and page routing. This covers every other file of the
  repository and the display text of `nextstep.py` and `wealthflow.py`.
- The session store itself and its initialisation. The model receives the
  values the screen reads from it.
- The clock. `monthly_goal_contribution` reads the current year, and the model
  takes it as a parameter. `date.today()` as the default transaction date is
  omitted.
- The date-picker result handling at wealthflow.py:45-50. It turns a one-date
  or two-date pick into a window, and the model takes the window as given.
- Floating-point rounding. Amounts are exact reals, so the bucket sum holds
  exactly rather than within the float error of 0.4 + 0.3 + 0.3.
- Unicode case mapping. `Text.Lower` maps only A-Z, while Python's
  `str.lower` also maps non-ASCII letters. The nickname rules search the
  fixed goal labels, which are ASCII apart from an apostrophe that both leave
  alone. The emergency-goal lookup searches plan names the user typed, which
  may hold any character. The answer is still the same there, because the
  keyword "emergency" is ASCII. The only non-ASCII characters that Python
  lower-cases to ASCII letters are U+0130, which gives "i" plus a combining
  dot, and the Kelvin sign, which gives "k". Neither letter occurs in
  "emergency".
- Missing or `None` target and saved fields of a stored plan, which the
  source reads as 0. Every plan in the model has all its fields.
- Object identity. The source skips the emergency goal with `goal is
  emergency_goal` and updates a plan through a shared reference. The model
  uses list positions for both.
- The gate on a saved primary goal at nextstep.py:162. It only decides
  whether the plan section is shown. `NextStep.GoalBook.AddTrackedGoal`
  models the button inside it and does not require it.
- The form defaults that simply copy saved answers (goal, timeframe, why,
  risk at nextstep.py:57-76, 109-132). They are index lookups that add no
  rule.
- NextStep.GoalBook.TopUp: does not require the added amount to be
  non-negative. The input widget enforces that in the source, and the model
  allows any amount.
