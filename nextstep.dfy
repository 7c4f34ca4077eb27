/** The goal-plan bookkeeping of the "next step" screen: the defaults and
    fallbacks of the form, the tracked-goal upsert, the emergency-goal lookup,
    progress percentages and top-ups. */
module NextStep {
  import opened Wrappers
  import opened Text
  import Logic

  /** A tracked goal, as one entry of the list of goal plans. */
  datatype GoalPlan = GoalPlan(id: string, name: string, kind: string, target: real, saved: real,
                               monthlyTarget: real, timeframe: string, why: string)

  /** The saved answers of the form. The keys that may be missing are options;
      `timeframe` and `why` are always present once the form was submitted. */
  datatype Answers = Answers(primaryGoal: string, timeframe: string, why: string,
                             nickname: Option<string>, targetAmount: Option<real>,
                             monthlyAmount: Option<real>)

  /** The fields an upsert writes into a plan. */
  datatype GoalFields = GoalFields(name: string, kind: string, target: real, monthlyTarget: real,
                                   timeframe: string, why: string)

  predicate MentionsEmergencyFund(goal: string) {
    Contains(Lower(goal), "emergency fund")
  }

  // ---------------------------------------------------------------------------
  // Defaults and fallbacks of the form and of the plan

  /** The nickname offered in the form: the saved one when it is not empty,
      otherwise one chosen by keyword, "emergency fund" before "debt" before
      "investing" before "specific purchase", and empty when none matches. */
  function DefaultNickname(saved: Option<string>, primaryGoal: string): (r: string)
    ensures saved.GetOr("") != "" ==> r == saved.value
    ensures saved.GetOr("") == "" ==>
      (r == "Emergency fund" <==> MentionsEmergencyFund(primaryGoal))
      && (r == "Debt payoff" <==> !MentionsEmergencyFund(primaryGoal) && Contains(Lower(primaryGoal), "debt"))
      && (r == "Long-term investing" <==> !MentionsEmergencyFund(primaryGoal) && !Contains(Lower(primaryGoal), "debt")
                                           && Contains(Lower(primaryGoal), "investing"))
      && (r == "Big purchase" <==> !MentionsEmergencyFund(primaryGoal) && !Contains(Lower(primaryGoal), "debt")
                                    && !Contains(Lower(primaryGoal), "investing")
                                    && Contains(Lower(primaryGoal), "specific purchase"))
      && (r == "" <==> !MentionsEmergencyFund(primaryGoal) && !Contains(Lower(primaryGoal), "debt")
                        && !Contains(Lower(primaryGoal), "investing")
                        && !Contains(Lower(primaryGoal), "specific purchase"))
  {
    var name := saved.GetOr("");
    if name != "" then name
    else
      var lower := Lower(primaryGoal);
      if Contains(lower, "emergency fund") then "Emergency fund"
      else if Contains(lower, "debt") then "Debt payoff"
      else if Contains(lower, "investing") then "Long-term investing"
      else if Contains(lower, "specific purchase") then "Big purchase"
      else ""
  }

  // The five goal labels of the form (nextstep.py:49-55), and the nicknames
  // their wording gives. Each keyword fact is its own lemma: proved together,
  // the facts about one literal make the solver unfold too much.

  const EmergencyFundOption := "Build or top up my emergency fund"
  const DebtOption := "Clean up high-interest debt"
  const InvestingOption := "Start long-term investing"
  const PurchaseOption := "Save for a specific purchase"
  const UnsureOption := "I\U{2019}m not sure yet"

  lemma EmergencyFundOptionMentionsKeyword()
    ensures Contains(Lower(EmergencyFundOption), "emergency fund")
  {
    assert Lower(EmergencyFundOption)[19..33] == "emergency fund";
    ContainsAt(Lower(EmergencyFundOption), "emergency fund", 19);
  }

  lemma DefaultNicknameEmergencyFundOption()
    ensures DefaultNickname(None, EmergencyFundOption) == "Emergency fund"
  {
    EmergencyFundOptionMentionsKeyword();
  }

  lemma DebtOptionLacksEmergencyFund()
    ensures !Contains(Lower(DebtOption), "emergency fund")
  {
    LowerLacksKeyword(DebtOption, "emergency fund", 'm');
  }

  lemma DebtOptionMentionsKeyword()
    ensures Contains(Lower(DebtOption), "debt")
  {
    assert Lower(DebtOption)[23..27] == "debt";
    ContainsAt(Lower(DebtOption), "debt", 23);
  }

  lemma DefaultNicknameDebtOption()
    ensures DefaultNickname(None, DebtOption) == "Debt payoff"
  {
    DebtOptionLacksEmergencyFund();
    DebtOptionMentionsKeyword();
  }

  lemma InvestingOptionLacksEmergencyFund()
    ensures !Contains(Lower(InvestingOption), "emergency fund")
  {
    LowerLacksKeyword(InvestingOption, "emergency fund", 'y');
  }

  lemma InvestingOptionLacksDebt()
    ensures !Contains(Lower(InvestingOption), "debt")
  {
    LowerLacksKeyword(InvestingOption, "debt", 'd');
  }

  lemma InvestingOptionMentionsKeyword()
    ensures Contains(Lower(InvestingOption), "investing")
  {
    assert Lower(InvestingOption)[16..25] == "investing";
    ContainsAt(Lower(InvestingOption), "investing", 16);
  }

  lemma DefaultNicknameInvestingOption()
    ensures DefaultNickname(None, InvestingOption) == "Long-term investing"
  {
    InvestingOptionLacksEmergencyFund();
    InvestingOptionLacksDebt();
    InvestingOptionMentionsKeyword();
  }

  lemma PurchaseOptionLacksEmergencyFund()
    ensures !Contains(Lower(PurchaseOption), "emergency fund")
  {
    LowerLacksKeyword(PurchaseOption, "emergency fund", 'm');
  }

  lemma PurchaseOptionLacksDebt()
    ensures !Contains(Lower(PurchaseOption), "debt")
  {
    LowerLacksKeyword(PurchaseOption, "debt", 'd');
  }

  lemma PurchaseOptionLacksInvesting()
    ensures !Contains(Lower(PurchaseOption), "investing")
  {
    LowerLacksKeyword(PurchaseOption, "investing", 'g');
  }

  lemma PurchaseOptionMentionsKeyword()
    ensures Contains(Lower(PurchaseOption), "specific purchase")
  {
    assert Lower(PurchaseOption)[11..28] == "specific purchase";
    ContainsAt(Lower(PurchaseOption), "specific purchase", 11);
  }

  lemma DefaultNicknamePurchaseOption()
    ensures DefaultNickname(None, PurchaseOption) == "Big purchase"
  {
    PurchaseOptionLacksEmergencyFund();
    PurchaseOptionLacksDebt();
    PurchaseOptionLacksInvesting();
    PurchaseOptionMentionsKeyword();
  }

  lemma UnsureOptionLacksEmergencyFund()
    ensures !Contains(Lower(UnsureOption), "emergency fund")
  {
    LowerLacksKeyword(UnsureOption, "emergency fund", 'f');
  }

  lemma UnsureOptionLacksDebt()
    ensures !Contains(Lower(UnsureOption), "debt")
  {
    LowerLacksKeyword(UnsureOption, "debt", 'd');
  }

  lemma UnsureOptionLacksInvesting()
    ensures !Contains(Lower(UnsureOption), "investing")
  {
    LowerLacksKeyword(UnsureOption, "investing", 'g');
  }

  lemma UnsureOptionLacksPurchase()
    ensures !Contains(Lower(UnsureOption), "specific purchase")
  {
    LowerLacksKeyword(UnsureOption, "specific purchase", 'p');
  }

  lemma DefaultNicknameUnsureOption()
    ensures DefaultNickname(None, UnsureOption) == ""
  {
    UnsureOptionLacksEmergencyFund();
    UnsureOptionLacksDebt();
    UnsureOptionLacksInvesting();
    UnsureOptionLacksPurchase();
  }

  /** The goal's target: the saved amount (0 when missing), except that a zero
      target of an emergency-fund goal is replaced by the emergency-fund
      target. Used for the form default, for the plan and for the upsert. */
  function TargetFallback(stored: Option<real>, goal: string, eTarget: real): (r: real)
    ensures stored.GetOr(0.0) != 0.0 ==> r == stored.value
    ensures !MentionsEmergencyFund(goal) ==> r == stored.GetOr(0.0)
    ensures stored.GetOr(0.0) == 0.0 && MentionsEmergencyFund(goal) ==> r == eTarget
    ensures r != stored.GetOr(0.0) ==> r == eTarget
  {
    var target := stored.GetOr(0.0);
    if target == 0.0 && MentionsEmergencyFund(goal) then eTarget else target
  }

  /** The monthly amount offered in the form: the saved one, or the positive
      part of the cashflow when none was saved, and never negative. */
  function FormMonthlyDefault(stored: Option<real>, cashflow: real): (r: real)
    ensures r >= 0.0
    ensures stored.None? ==> r == Logic.Max(cashflow, 0.0)
    ensures stored.Some? && stored.value >= 0.0 ==> r == stored.value
    ensures stored.Some? && stored.value < 0.0 ==> r == 0.0
  {
    var monthly := stored.GetOr(Logic.Max(cashflow, 0.0));
    if monthly < 0.0 then 0.0 else monthly
  }

  /** The monthly amount of the plan: the saved amount (0 when missing); a
      non-positive one becomes 30% of the cashflow when there is a surplus. */
  function PlanMonthly(stored: Option<real>, cashflow: real): (r: real)
    ensures cashflow > 0.0 ==> r > 0.0
    ensures stored.GetOr(0.0) > 0.0 ==> r == stored.value
    ensures stored.GetOr(0.0) <= 0.0 && cashflow > 0.0 ==> r == 0.3 * cashflow
    ensures cashflow <= 0.0 ==> r == stored.GetOr(0.0)
  {
    var monthly := stored.GetOr(0.0);
    if monthly <= 0.0 && cashflow > 0.0 then Logic.Max(cashflow * 0.3, 0.0) else monthly
  }

  /** What is still missing from the emergency fund. */
  function BufferGap(eTarget: real, savings: real): (r: real)
    ensures r >= 0.0 && r >= eTarget - savings
    ensures r == 0.0 <==> savings >= eTarget
    ensures r > 0.0 ==> savings + r == eTarget
  {
    Logic.Max(eTarget - savings, 0.0)
  }

  /** Months to close the gap at the monthly amount; undefined when nothing is
      put aside each month. */
  function MonthsToBuffer(gap: real, monthly: real): (r: Option<real>)
    ensures r.Some? <==> monthly > 0.0
    ensures r.Some? ==> r.value * monthly == gap
    ensures r.Some? && gap >= 0.0 ==> r.value >= 0.0
  {
    if monthly > 0.0 then Some(gap / monthly) else None
  }

  /** The name under which a goal is tracked: its nickname, or the goal label
      when the nickname is missing or empty. */
  function TrackedGoalName(nickname: Option<string>, goal: string): (r: string)
    ensures nickname.GetOr("") != "" ==> r == nickname.value
    ensures nickname.GetOr("") == "" ==> r == goal
    ensures goal != "" ==> r != ""
  {
    var name := nickname.GetOr("");
    if name != "" then name else goal
  }

  /** Everything written into the tracked goal when it is added from the
      answers: the name, the goal label as kind, the target with its
      emergency-fund fallback, the monthly amount with its cashflow fallback. */
  function TrackedGoalFields(ns: Answers, income: real, expenses: real, debt: real): (f: GoalFields)
    ensures f.name == TrackedGoalName(ns.nickname, ns.primaryGoal)
    ensures f.kind == ns.primaryGoal && f.timeframe == ns.timeframe && f.why == ns.why
    ensures f.target == TargetFallback(ns.targetAmount, ns.primaryGoal, Logic.EmergencyFundTarget(expenses, debt))
    ensures f.monthlyTarget == PlanMonthly(ns.monthlyAmount, Logic.Cashflow(income, expenses))
  {
    var cashflow := Logic.Cashflow(income, expenses);
    var eTarget := Logic.EmergencyFundTarget(expenses, debt);
    GoalFields(TrackedGoalName(ns.nickname, ns.primaryGoal), ns.primaryGoal,
               TargetFallback(ns.targetAmount, ns.primaryGoal, eTarget),
               PlanMonthly(ns.monthlyAmount, cashflow), ns.timeframe, ns.why)
  }

  // ---------------------------------------------------------------------------
  // Progress

  /** Python's `int(x)`: truncation toward zero. */
  function Truncate(x: real): (r: int)
    ensures x >= 0.0 ==> r as real <= x < r as real + 1.0
    ensures x < 0.0 ==> r as real - 1.0 < x <= r as real
  {
    if x >= 0.0 then x.Floor else -((-x).Floor)
  }

  /** Percentage of the target saved, clamped to 0..100 and truncated; 0 when
      the goal has no positive target. */
  function ProgressPct(target: real, saved: real): (pct: int)
    ensures 0 <= pct <= 100
    ensures target <= 0.0 ==> pct == 0
    ensures target > 0.0 && saved >= target ==> pct == 100
    ensures saved <= 0.0 ==> pct == 0
    ensures target > 0.0 && 0.0 <= saved <= target ==> pct as real <= saved / target * 100.0 < pct as real + 1.0
  {
    if target > 0.0 then
      RatioAtLeastOne(saved, target);
      Truncate(Logic.Min(100.0, Logic.Max(0.0, saved / target * 100.0)))
    else 0
  }

  /** Saving at least the target is at least 100 percent of it. */
  lemma RatioAtLeastOne(saved: real, target: real)
    requires target > 0.0
    ensures saved >= target ==> saved / target * 100.0 >= 100.0
  {
    var q := saved / target;
    assert q * target == saved;
    assert (q - 1.0) * target == saved - target;
  }

  /** Division by a positive number keeps the order. */
  lemma QuotientMonotone(a: real, b: real, d: real)
    requires a <= b && d > 0.0
    ensures a / d <= b / d
  {
    var qa := a / d;
    var qb := b / d;
    assert qa * d == a && qb * d == b;
    assert (qb - qa) * d == b - a;
  }

  /** Saving more never shows less progress. */
  lemma ProgressMonotone(target: real, s1: real, s2: real)
    requires s1 <= s2
    ensures ProgressPct(target, s1) <= ProgressPct(target, s2)
  {
    if target > 0.0 {
      QuotientMonotone(s1, s2, target);
    }
  }

  // ---------------------------------------------------------------------------
  // Finding goals

  predicate IsEmergencyPlan(p: GoalPlan) {
    Contains(Lower(p.name), "emergency") || Contains(Lower(p.kind), "emergency")
  }

  /** The emergency goal: the first plan whose name or kind mentions
      "emergency", if any. */
  function EmergencyGoalIndex(plans: seq<GoalPlan>): (r: Option<nat>)
    ensures r.None? <==> forall i :: 0 <= i < |plans| ==> !IsEmergencyPlan(plans[i])
    ensures r.Some? ==> r.value < |plans| && IsEmergencyPlan(plans[r.value])
                        && forall j :: 0 <= j < r.value ==> !IsEmergencyPlan(plans[j])
  {
    if |plans| == 0 then None
    else if IsEmergencyPlan(plans[0]) then Some(0)
    else match EmergencyGoalIndex(plans[1..])
      case None => None
      case Some(k) => Some(k + 1)
  }

  /** The first plan with the given name, if any. */
  function FirstNamed(plans: seq<GoalPlan>, name: string): (r: Option<nat>)
    ensures r.None? <==> forall i :: 0 <= i < |plans| ==> plans[i].name != name
    ensures r.Some? ==> r.value < |plans| && plans[r.value].name == name
                        && forall j :: 0 <= j < r.value ==> plans[j].name != name
  {
    if |plans| == 0 then None
    else if plans[0].name == name then Some(0)
    else match FirstNamed(plans[1..], name)
      case None => None
      case Some(k) => Some(k + 1)
  }

  /** The indices below `n` other than `skip`, in increasing order. */
  function IndicesExcept(n: nat, skip: Option<nat>): (r: seq<nat>)
    ensures forall i: nat :: i in r <==> i < n && skip != Some(i)
    ensures forall a :: 0 <= a < |r| ==> r[a] < n
    ensures |r| == if skip.Some? && skip.value < n then n - 1 else n
    ensures forall a, b :: 0 <= a < b < |r| ==> r[a] < r[b]
  {
    if n == 0 then []
    else IndicesExcept(n - 1, skip) + (if skip == Some(n - 1) then [] else [n - 1])
  }

  /** The goals listed under "other goals": every plan except the emergency
      goal, in list order. */
  function OtherGoalIndices(plans: seq<GoalPlan>): (r: seq<nat>)
    ensures forall i: nat :: i in r <==> i < |plans| && EmergencyGoalIndex(plans) != Some(i)
    ensures forall a, b :: 0 <= a < b < |r| ==> r[a] < r[b]
    ensures |r| == if EmergencyGoalIndex(plans).Some? then |plans| - 1 else |plans|
  {
    IndicesExcept(|plans|, EmergencyGoalIndex(plans))
  }

  // ---------------------------------------------------------------------------
  // The tracked-goal upsert and top-ups, on values

  /** The id of the n-th tracked goal: "g1", "g2", ... */
  function GoalId(n: nat): (id: string)
    ensures |id| >= 2 && id[0] == 'g' && IsDigits(id[1..]) && DecimalValue(id[1..]) == n
    ensures |id| == 2 || id[1] != '0'
  {
    DecimalRoundTrip(n);
    "g" + NatToDecimal(n)
  }

  lemma GoalIdInjective(a: nat, b: nat)
    requires GoalId(a) == GoalId(b)
    ensures a == b
  {
    assert GoalId(a)[1..] == GoalId(b)[1..];
  }

  /** An existing plan refreshed with new fields: its id, name and saved
      amount are kept. */
  function Refreshed(p: GoalPlan, f: GoalFields): (r: GoalPlan)
    ensures r.id == p.id && r.name == p.name && r.saved == p.saved
    ensures r.target == f.target && r.monthlyTarget == f.monthlyTarget && r.timeframe == f.timeframe
            && r.why == f.why && r.kind == f.kind
  {
    p.(target := f.target, monthlyTarget := f.monthlyTarget, timeframe := f.timeframe, why := f.why, kind := f.kind)
  }

  /** A new plan appended after `n` others: id "g{n+1}", nothing saved. */
  function NewPlan(n: nat, f: GoalFields): (r: GoalPlan)
    ensures r.id == GoalId(n + 1) && r.saved == 0.0 && r.name == f.name
    ensures Refreshed(r, f) == r
  {
    GoalPlan(GoalId(n + 1), f.name, f.kind, f.target, 0.0, f.monthlyTarget, f.timeframe, f.why)
  }

  /** The upsert: the first plan with the same name is refreshed in place; when
      there is none, a new plan is appended. */
  function UpsertedPlans(plans: seq<GoalPlan>, f: GoalFields): (r: seq<GoalPlan>)
    ensures FirstNamed(plans, f.name).Some? ==>
      var k := FirstNamed(plans, f.name).value;
      |r| == |plans| && r[k] == Refreshed(plans[k], f)
      && forall i :: 0 <= i < |plans| && i != k ==> r[i] == plans[i]
    ensures FirstNamed(plans, f.name).None? ==>
      |r| == |plans| + 1 && r[..|plans|] == plans && r[|plans|] == NewPlan(|plans|, f)
    ensures FirstNamed(r, f.name).Some?
  {
    match FirstNamed(plans, f.name)
    case Some(k) => plans[k := Refreshed(plans[k], f)]
    case None => plans + [NewPlan(|plans|, f)]
  }

  /** The upserted goal is the first one with its name afterwards, and it
      holds the fields just written. */
  lemma UpsertFindsFields(plans: seq<GoalPlan>, f: GoalFields)
    ensures var r := UpsertedPlans(plans, f);
      var k := FirstNamed(r, f.name).value;
      Refreshed(r[k], f) == r[k]
      && (FirstNamed(plans, f.name).Some? ==> k == FirstNamed(plans, f.name).value)
      && (FirstNamed(plans, f.name).None? ==> k == |plans|)
  {
    var r := UpsertedPlans(plans, f);
    match FirstNamed(plans, f.name)
    case Some(k) =>
      assert r[k].name == f.name;
      assert forall j :: 0 <= j < k ==> r[j] == plans[j];
      FirstNamedAt(r, f.name, k);
    case None =>
      assert r[|plans|].name == f.name;
      assert forall j :: 0 <= j < |plans| ==> r[j] == plans[j];
      FirstNamedAt(r, f.name, |plans|);
  }

  /** A plan with the name, preceded by none, is the one `FirstNamed` finds. */
  lemma FirstNamedAt(plans: seq<GoalPlan>, name: string, k: nat)
    requires k < |plans| && plans[k].name == name
    requires forall j :: 0 <= j < k ==> plans[j].name != name
    ensures FirstNamed(plans, name) == Some(k)
  {
  }

  /** Adding the same goal twice is the same as adding it once. */
  lemma UpsertIdempotent(plans: seq<GoalPlan>, f: GoalFields)
    ensures UpsertedPlans(UpsertedPlans(plans, f), f) == UpsertedPlans(plans, f)
  {
    UpsertFindsFields(plans, f);
  }

  ghost predicate NamesDistinct(plans: seq<GoalPlan>) {
    forall i, j :: 0 <= i < j < |plans| ==> plans[i].name != plans[j].name
  }

  /** The upsert never creates a second plan with a name already in use. */
  lemma UpsertKeepsNamesDistinct(plans: seq<GoalPlan>, f: GoalFields)
    requires NamesDistinct(plans)
    ensures NamesDistinct(UpsertedPlans(plans, f))
  {
    var r := UpsertedPlans(plans, f);
    if FirstNamed(plans, f.name).None? {
      forall i, j | 0 <= i < j < |r| ensures r[i].name != r[j].name {
        if j == |plans| {
          assert r[i] == plans[i];
        } else {
          assert r[i] == plans[i] && r[j] == plans[j];
        }
      }
    }
  }

  /** Every plan's id is "g" followed by its position, counted from 1. */
  ghost predicate IdsByPosition(plans: seq<GoalPlan>) {
    forall i :: 0 <= i < |plans| ==> plans[i].id == GoalId(i + 1)
  }

  /** Ids given by position are all different. */
  lemma IdsByPositionDistinct(plans: seq<GoalPlan>)
    requires IdsByPosition(plans)
    ensures forall i, j :: 0 <= i < j < |plans| ==> plans[i].id != plans[j].id
  {
    forall i, j | 0 <= i < j < |plans| ensures plans[i].id != plans[j].id {
      assert plans[i].id[1..] == NatToDecimal(i + 1);
    }
  }

  /** A list built only by upserts keeps ids by position, so the "g{n+1}" id of
      a new plan never collides with an earlier one. */
  lemma UpsertKeepsIdsByPosition(plans: seq<GoalPlan>, f: GoalFields)
    requires IdsByPosition(plans)
    ensures IdsByPosition(UpsertedPlans(plans, f))
  {
    var r := UpsertedPlans(plans, f);
    if FirstNamed(plans, f.name).None? {
      assert forall i :: 0 <= i < |plans| ==> r[i] == plans[i];
    }
  }

  /** The tracked goal names with `name` added unless it is already there. */
  function WithGoalName(goals: seq<string>, name: string): (r: seq<string>)
    ensures name in r && |goals| <= |r| && r[..|goals|] == goals
    ensures multiset(r)[name] == if name in goals then multiset(goals)[name] else 1
    ensures forall x :: x != name ==> multiset(r)[x] == multiset(goals)[x]
  {
    if name in goals then goals else goals + [name]
  }

  /** A top-up: one plan's saved amount grows by the given amount. */
  function ToppedUp(plans: seq<GoalPlan>, i: nat, amount: real): (r: seq<GoalPlan>)
    requires i < |plans|
    ensures |r| == |plans| && r[i].saved == plans[i].saved + amount
    ensures r[i] == plans[i].(saved := r[i].saved)
    ensures forall j :: 0 <= j < |plans| && j != i ==> r[j] == plans[j]
  {
    plans[i := plans[i].(saved := plans[i].saved + amount)]
  }

  /** The sum of what has been saved over all plans. */
  function TotalSaved(plans: seq<GoalPlan>): real {
    if |plans| == 0 then 0.0 else TotalSaved(plans[..|plans| - 1]) + plans[|plans| - 1].saved
  }

  /** A top-up raises the total saved by exactly the amount added. */
  lemma {:induction false} TopUpTotal(plans: seq<GoalPlan>, i: nat, amount: real)
    requires i < |plans|
    ensures TotalSaved(ToppedUp(plans, i, amount)) == TotalSaved(plans) + amount
    decreases |plans|
  {
    var r := ToppedUp(plans, i, amount);
    var n := |plans| - 1;
    if i == n {
      assert r[..n] == plans[..n];
    } else {
      assert r[..n] == ToppedUp(plans[..n], i, amount);
      TopUpTotal(plans[..n], i, amount);
    }
  }

  /** A top-up keeps names and ids, so it keeps both list invariants. */
  lemma TopUpKeepsInvariants(plans: seq<GoalPlan>, i: nat, amount: real)
    requires i < |plans|
    ensures NamesDistinct(plans) ==> NamesDistinct(ToppedUp(plans, i, amount))
    ensures IdsByPosition(plans) ==> IdsByPosition(ToppedUp(plans, i, amount))
  {
  }

  // ---------------------------------------------------------------------------
  // The session's goal store, updated in place

  /** The goal plans and the profile's list of goal names. */
  class GoalBook {
    var plans: seq<GoalPlan>
    var profileGoals: seq<string>

    constructor (plans: seq<GoalPlan>, profileGoals: seq<string>)
      ensures this.plans == plans && this.profileGoals == profileGoals
    {
      this.plans := plans;
      this.profileGoals := profileGoals;
    }

    /** Refreshes the plan with the same name, or appends a new plan and adds
        its name to the profile's goals. */
    method Upsert(f: GoalFields)
      modifies this
      ensures plans == UpsertedPlans(old(plans), f)
      ensures FirstNamed(old(plans), f.name).Some? ==> profileGoals == old(profileGoals)
      ensures FirstNamed(old(plans), f.name).None? ==> profileGoals == WithGoalName(old(profileGoals), f.name)
      ensures NamesDistinct(old(plans)) ==> NamesDistinct(plans)
      ensures IdsByPosition(old(plans)) ==> IdsByPosition(plans)
    {
      if NamesDistinct(plans) {
        UpsertKeepsNamesDistinct(plans, f);
      }
      if IdsByPosition(plans) {
        UpsertKeepsIdsByPosition(plans, f);
      }
      var existing := FirstNamed(plans, f.name);
      match existing
      case Some(k) =>
        plans := plans[k := Refreshed(plans[k], f)];
      case None =>
        var n := |plans|;
        plans := plans + [NewPlan(n, f)];
        if f.name !in profileGoals {
          profileGoals := profileGoals + [f.name];
        }
    }

    /** "Add this as a tracked goal": upserts the goal described by the answers. */
    method AddTrackedGoal(ns: Answers, income: real, expenses: real, debt: real)
      modifies this
      ensures plans == UpsertedPlans(old(plans), TrackedGoalFields(ns, income, expenses, debt))
      ensures var name := TrackedGoalFields(ns, income, expenses, debt).name;
        profileGoals == if FirstNamed(old(plans), name).Some? then old(profileGoals)
                        else WithGoalName(old(profileGoals), name)
    {
      Upsert(TrackedGoalFields(ns, income, expenses, debt));
    }

    /** Adds an amount to one goal's saved total. */
    method TopUp(i: nat, amount: real)
      requires i < |plans|
      modifies this
      ensures plans == ToppedUp(old(plans), i, amount)
      ensures profileGoals == old(profileGoals)
      ensures TotalSaved(plans) == TotalSaved(old(plans)) + amount
    {
      TopUpTotal(plans, i, amount);
      plans := plans[i := plans[i].(saved := plans[i].saved + amount)];
    }
  }
}
