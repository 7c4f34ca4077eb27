/** The planning rule engine: derived figures and the monthly allocation for a
    financial snapshot. Amounts are exact reals; a country is the code the user
    picked, and only "IN" is treated specially. */
module Logic {

  function Min(a: real, b: real): (r: real)
    ensures r <= a && r <= b && (r == a || r == b)
  {
    if b < a then b else a
  }

  function Max(a: real, b: real): (r: real)
    ensures r >= a && r >= b && (r == a || r == b)
  {
    if b > a then b else a
  }

  /** Monthly cashflow: what is left of income after expenses. A deficit is a
      negative cashflow, not an error. */
  function Cashflow(income: real, expenses: real): (r: real)
    ensures r + expenses == income
    ensures r < 0.0 <==> expenses > income
  {
    income - expenses
  }

  /** Net worth: savings less debt. */
  function NetWorth(savings: real, debt: real): (r: real)
    ensures r + debt == savings
    ensures r < 0.0 <==> debt > savings
  {
    savings - debt
  }

  /** Cashflow as a percentage of income; 0 when there is no income to divide by. */
  function SavingsRate(income: real, cashflow: real): (r: real)
    ensures income <= 0.0 ==> r == 0.0
    ensures income > 0.0 ==> r * income == cashflow * 100.0
  {
    if income <= 0.0 then 0.0 else (cashflow / income) * 100.0
  }

  /** With a positive income and non-negative expenses the savings rate is at
      most 100%, and it is non-negative exactly when expenses do not exceed
      income. */
  lemma SavingsRateOfCashflow(income: real, expenses: real)
    requires income > 0.0 && expenses >= 0.0
    ensures SavingsRate(income, Cashflow(income, expenses)) <= 100.0
    ensures SavingsRate(income, Cashflow(income, expenses)) >= 0.0 <==> expenses <= income
  {
    var r := SavingsRate(income, Cashflow(income, expenses));
    assert r * income == (income - expenses) * 100.0;
    if r < 0.0 {
      assert r * income < 0.0;
    }
    if expenses > income {
      assert r * income < 0.0;
    }
  }

  /** The emergency-fund target: a buffer of months of expenses, three months
      without debt and one month while any debt is outstanding; nothing when
      there are no expenses. */
  function EmergencyFundTarget(expenses: real, debt: real): (r: real)
    ensures r == 0.0 <==> expenses <= 0.0
    ensures 0.0 <= r <= 3.0 * Max(expenses, 0.0)
    ensures expenses > 0.0 ==> (r == expenses <==> debt > 0.0)
    ensures expenses > 0.0 ==> (r == 3.0 * expenses <==> debt <= 0.0)
  {
    if expenses <= 0.0 then 0.0
    else if debt > 0.0 then 1.0 * expenses
    else 3.0 * expenses
  }

  /** Having debt cuts the target to a third of the debt-free target. */
  lemma EmergencyTargetDebtThird(expenses: real, debt: real)
    requires debt > 0.0
    ensures 3.0 * EmergencyFundTarget(expenses, debt) == EmergencyFundTarget(expenses, 0.0)
  {
  }

  /** Higher expenses never lower the target, whatever the debt. */
  lemma EmergencyTargetMonotone(e1: real, e2: real, debt: real)
    requires e1 <= e2
    ensures EmergencyFundTarget(e1, debt) <= EmergencyFundTarget(e2, debt)
  {
  }

  /** A savings-rate band, low and high, in percent of income. */
  datatype RateBand = RateBand(low: real, high: real)

  /** The income thresholds of the two lower brackets, in the country's own
      currency: rupees for "IN", dollars for every other code. */
  function BracketThresholds(country: string): (t: (real, real))
    ensures 0.0 < t.0 < t.1
    ensures country == "IN" ==> t == (30000.0, 60000.0)
    ensures country != "IN" ==> t == (3000.0, 6000.0)
  {
    if country == "IN" then (30000.0, 60000.0) else (3000.0, 6000.0)
  }

  /** The target savings-rate band for an income: a step function of the
      income bracket, with a higher top band for "IN". */
  function SavingsRateTarget(country: string, income: real): (r: RateBand)
    ensures r == RateBand(0.0, 0.0) <==> income <= 0.0
    ensures income > 0.0 ==> 0.0 < r.low < r.high
    ensures income > 0.0 ==> r.low in {10.0, 15.0, 25.0}
    ensures income > 0.0 && income < BracketThresholds(country).0 ==> r == RateBand(10.0, 15.0)
    ensures BracketThresholds(country).0 <= income < BracketThresholds(country).1 ==> r == RateBand(15.0, 25.0)
    ensures income >= BracketThresholds(country).1 ==> r == RateBand(25.0, if country == "IN" then 40.0 else 35.0)
  {
    if income <= 0.0 then RateBand(0.0, 0.0)
    else if country == "IN" then
      if income < 30000.0 then RateBand(10.0, 15.0)
      else if income < 60000.0 then RateBand(15.0, 25.0)
      else RateBand(25.0, 40.0)
    else
      if income < 3000.0 then RateBand(10.0, 15.0)
      else if income < 6000.0 then RateBand(15.0, 25.0)
      else RateBand(25.0, 35.0)
  }

  /** A higher income never gives a lower band. */
  lemma SavingsRateTargetMonotone(country: string, a: real, b: real)
    requires a <= b
    ensures SavingsRateTarget(country, a).low <= SavingsRateTarget(country, b).low
    ensures SavingsRateTarget(country, a).high <= SavingsRateTarget(country, b).high
  {
  }

  /** The "IN" brackets are the other brackets scaled by ten; the bands agree
      except for the high end of the top band. */
  lemma SavingsRateTargetScaled(other: string, income: real)
    requires other != "IN"
    ensures SavingsRateTarget("IN", 10.0 * income).low == SavingsRateTarget(other, income).low
    ensures income < 6000.0 ==> SavingsRateTarget("IN", 10.0 * income) == SavingsRateTarget(other, income)
  {
  }

  /** The documented sample points of the "IN" table. */
  lemma SavingsRateTargetSamples()
    ensures SavingsRateTarget("IN", 0.0) == RateBand(0.0, 0.0)
    ensures SavingsRateTarget("IN", 29999.0) == RateBand(10.0, 15.0)
    ensures SavingsRateTarget("IN", 30000.0) == RateBand(15.0, 25.0)
    ensures SavingsRateTarget("IN", 60000.0) == RateBand(25.0, 40.0)
  {
  }

  /** The share of monthly savings meant for debt: 0.4 with high-interest debt,
      0.2 otherwise, whatever the country. */
  function DebtPriorityShare(country: string, highInterestDebt: bool): (r: real)
    ensures r == 0.4 <==> highInterestDebt
    ensures r == 0.2 <==> !highInterestDebt
    ensures 0.0 < r < 1.0
  {
    if highInterestDebt then 0.4 else 0.2
  }

  /** The country plays no part in the debt priority share. */
  lemma DebtPriorityShareIgnoresCountry(c1: string, c2: string, highInterestDebt: bool)
    ensures DebtPriorityShare(c1, highInterestDebt) == DebtPriorityShare(c2, highInterestDebt)
  {
  }

  /** Months over which a goal is saved for: whole years to the target year,
      at least one year. */
  function GoalMonths(targetYear: int, currentYear: int): (m: int)
    ensures m >= 12 && m % 12 == 0
    ensures targetYear <= currentYear + 1 ==> m == 12
    ensures targetYear > currentYear ==> m == 12 * (targetYear - currentYear)
  {
    var years := if targetYear - currentYear > 1 then targetYear - currentYear else 1;
    years * 12
  }

  /** The monthly amount that reaches a goal's target by its target year, with
      no interest. The source's guard for a non-positive month count is kept,
      although `GoalMonths` shows it never fires. */
  function MonthlyGoalContribution(targetAmount: real, targetYear: int, currentYear: int): (r: real)
    ensures r * GoalMonths(targetYear, currentYear) as real == targetAmount
    ensures targetYear <= currentYear + 1 ==> r * 12.0 == targetAmount
    ensures targetAmount >= 0.0 ==> 0.0 <= r <= targetAmount / 12.0
  {
    var months := GoalMonths(targetYear, currentYear);
    if months <= 0 then targetAmount else targetAmount / months as real
  }

  /** 12000 due next year is 1000 a month. */
  lemma MonthlyGoalContributionSample(currentYear: int)
    ensures MonthlyGoalContribution(12000.0, currentYear + 1, currentYear) == 1000.0
  {
  }

  /** Moving the target year later never raises the monthly amount of a
      non-negative target. */
  lemma MonthlyGoalContributionLaterIsLower(targetAmount: real, y1: int, y2: int, currentYear: int)
    requires targetAmount >= 0.0 && y1 <= y2
    ensures MonthlyGoalContribution(targetAmount, y2, currentYear) <= MonthlyGoalContribution(targetAmount, y1, currentYear)
  {
    QuotientAntitone(targetAmount, GoalMonths(y1, currentYear) as real, GoalMonths(y2, currentYear) as real);
  }

  /** Dividing a non-negative amount by a larger divisor never gives more. */
  lemma QuotientAntitone(t: real, m1: real, m2: real)
    requires t >= 0.0 && 0.0 < m1 <= m2
    ensures t / m2 <= t / m1
  {
    var q1 := t / m1;
    var q2 := t / m2;
    assert q1 * m1 == t && q2 * m2 == t && q2 >= 0.0;
    calc {
      q2 * m1;
    <= q2 * m2;
    == q1 * m1;
    }
  }

  /** The fractions of the recommended saving that go to each bucket. */
  datatype Shares = Shares(emergency: real, investing: real, debt: real)

  /** The split: 0.4/0.3/0.3 by default; with no debt the debt share moves to
      investing; with high-interest debt it becomes 0.3/0.3/0.4. */
  function SplitShares(debt: real, highInterestDebt: bool): (s: Shares)
    ensures s.emergency + s.investing + s.debt == 1.0
    ensures s.emergency > 0.0 && s.investing > 0.0 && s.debt >= 0.0
    ensures s.debt == 0.0 <==> debt <= 0.0
    ensures debt <= 0.0 ==> s == Shares(0.4, 0.6, 0.0)
    ensures debt > 0.0 && highInterestDebt ==> s == Shares(0.3, 0.3, 0.4)
    ensures debt > 0.0 && !highInterestDebt ==> s == Shares(0.4, 0.3, 0.3)
  {
    var base := Shares(0.4, 0.3, 0.3);
    if debt <= 0.0 then base.(investing := base.investing + base.debt, debt := 0.0)
    else if highInterestDebt then Shares(0.3, 0.3, 0.4)
    else base
  }

  /** The saving the band asks for: income times the band's midpoint rate. */
  function TargetSaving(country: string, income: real): (r: real)
    ensures income <= 0.0 ==> r == 0.0
    ensures income > 0.0 ==> income * 0.125 <= r <= income * 0.325
  {
    var band := SavingsRateTarget(country, income);
    var targetRate := if band.high > 0.0 then (band.low + band.high) / 2.0 else 0.0;
    income * (targetRate / 100.0)
  }

  /** The monthly plan: cashflow, the recommended saving and its three buckets. */
  datatype Plan = Plan(cashflow: real, recommendedSaving: real, emergency: real, investing: real, debt: real)

  lemma SplitAdds(amount: real, s: Shares)
    requires s.emergency + s.investing + s.debt == 1.0
    ensures amount * s.emergency + amount * s.investing + amount * s.debt == amount
  {
    calc {
      amount * s.emergency + amount * s.investing + amount * s.debt;
      amount * (s.emergency + s.investing + s.debt);
      amount;
    }
  }

  /** The monthly allocation. Nothing is allocated unless cashflow is positive;
      otherwise the recommended saving is the band's target capped by the
      cashflow, split by `SplitShares`. The buckets always add up to the
      recommended saving, which never exceeds the cashflow. */
  function AllocateMonthlyPlan(income: real, expenses: real, country: string, debt: real, highInterestDebt: bool): (p: Plan)
    ensures p.cashflow == Cashflow(income, expenses)
    ensures p.emergency + p.investing + p.debt == p.recommendedSaving
    ensures 0.0 <= p.recommendedSaving <= Max(p.cashflow, 0.0)
    ensures p.emergency >= 0.0 && p.investing >= 0.0 && p.debt >= 0.0
    ensures p.cashflow <= 0.0 ==> p == Plan(p.cashflow, 0.0, 0.0, 0.0, 0.0)
    ensures p.cashflow > 0.0 ==> p.recommendedSaving == Min(p.cashflow, TargetSaving(country, income))
  {
    var cashflow := Cashflow(income, expenses);
    if cashflow <= 0.0 then Plan(cashflow, 0.0, 0.0, 0.0, 0.0)
    else
      var recommended := Min(cashflow, TargetSaving(country, income));
      var s := SplitShares(debt, highInterestDebt);
      SplitAdds(recommended, s);
      Plan(cashflow, recommended, recommended * s.emergency, recommended * s.investing, recommended * s.debt)
  }

  /** Each bucket is its share of the recommended saving: no debt gives
      0.4/0.6/0, high-interest debt 0.3/0.3/0.4, other debt 0.4/0.3/0.3. */
  lemma AllocationBuckets(income: real, expenses: real, country: string, debt: real, highInterestDebt: bool)
    ensures var p := AllocateMonthlyPlan(income, expenses, country, debt, highInterestDebt);
      var s := SplitShares(debt, highInterestDebt);
      p.emergency == p.recommendedSaving * s.emergency
      && p.investing == p.recommendedSaving * s.investing
      && p.debt == p.recommendedSaving * s.debt
  {
  }

  /** The high-interest flag changes nothing when there is no debt. */
  lemma AllocationFlagNeedsDebt(income: real, expenses: real, country: string, debt: real)
    requires debt <= 0.0
    ensures AllocateMonthlyPlan(income, expenses, country, debt, true)
         == AllocateMonthlyPlan(income, expenses, country, debt, false)
  {
  }

  /** When cashflow covers the band's target, the plan saves exactly the
      band's midpoint rate of income. */
  lemma AllocationMeetsBandMidpoint(income: real, expenses: real, country: string, debt: real, highInterestDebt: bool)
    requires income > 0.0
    requires Cashflow(income, expenses) >= TargetSaving(country, income)
    ensures var p := AllocateMonthlyPlan(income, expenses, country, debt, highInterestDebt);
      var band := SavingsRateTarget(country, income);
      SavingsRate(income, p.recommendedSaving) == (band.low + band.high) / 2.0
  {
    var p := AllocateMonthlyPlan(income, expenses, country, debt, highInterestDebt);
    var band := SavingsRateTarget(country, income);
    var mid := (band.low + band.high) / 2.0;
    assert p.recommendedSaving == income * (mid / 100.0);
    RateOfPercentage(income, mid);
  }

  lemma RateOfPercentage(income: real, rate: real)
    requires income > 0.0
    ensures SavingsRate(income, income * (rate / 100.0)) == rate
  {
    var r := SavingsRate(income, income * (rate / 100.0));
    assert r * income == rate * income;
  }

  /** The debt bucket does not use `DebtPriorityShare`: with high-interest debt
      the two agree (0.4), with other debt the plan gives 0.3 where the
      priority share says 0.2. */
  lemma AllocationDebtShareVersusPriority(income: real, expenses: real, country: string, debt: real, highInterestDebt: bool)
    requires debt > 0.0
    ensures var p := AllocateMonthlyPlan(income, expenses, country, debt, highInterestDebt);
      (highInterestDebt ==> p.debt == p.recommendedSaving * DebtPriorityShare(country, highInterestDebt))
      && (!highInterestDebt ==> p.debt == p.recommendedSaving * (DebtPriorityShare(country, highInterestDebt) + 0.1))
  {
    AllocationBuckets(income, expenses, country, debt, highInterestDebt);
  }

  /** A worked example: income 50000 (IN), expenses 30000, no
      debt. */
  lemma AllocationSample()
    ensures AllocateMonthlyPlan(50000.0, 30000.0, "IN", 0.0, false) == Plan(20000.0, 10000.0, 4000.0, 6000.0, 0.0)
    ensures EmergencyFundTarget(30000.0, 0.0) == 90000.0
  {
  }
}
