/** The advice rules of services/nutritionalAnalysisService.js: insights, trends, meal targets,
    food suggestions and the daily score. */
module Analysis {
  import opened Wrappers
  import Js
  import opened Numeric
  import opened Nutrients
  import Foods
  import FoodLogs
  import Goals
  import AnalysisTotals

  // ---------------------------------------------------------------- what the rules read of the goals

  /** The calorie goal and whatever value stands where each macro's goal is read. */
  datatype Targets = Targets(calories: real, protein: Js.Value, carbohydrates: Js.Value, fat: Js.Value)

  /** `goals.macronutrients.protein` as stored: a `{ grams, calories }` object, or nothing. */
  function MacroObject(m: Option<Goals.MacroGoal>): Js.Value
  {
    if m.Some? then Js.Object else Js.Undefined
  }

  /** As written: the divisors are the stored macro objects themselves. */
  function TargetsAsWritten(g: Goals.GoalsRecord): Targets
  {
    Targets(g.calories, MacroObject(g.macronutrients.protein), MacroObject(g.macronutrients.carbohydrates),
            MacroObject(g.macronutrients.fat))
  }

  /** `goals.macronutrients.protein.grams` */
  function MacroGrams(m: Option<Goals.MacroGoal>): (v: Js.Value)
    ensures m.Some? ==> v == m.value.grams
  {
    if m.Some? then m.value.grams else Js.Undefined
  }

  /** Corrected: the divisors are the macro goals in grams. */
  function TargetsCorrected(g: Goals.GoalsRecord): Targets
  {
    Targets(g.calories, MacroGrams(g.macronutrients.protein), MacroGrams(g.macronutrients.carbohydrates),
            MacroGrams(g.macronutrients.fat))
  }

  /** `(x / d) * 100` */
  function Percent(x: real, d: Js.Value): Ext
  {
    Scale(Divide(x, d), 100.0)
  }

  function CaloriePercent(daily: Vector, t: Targets): Ext
  {
    Scale(Ratio(Amount(daily, Calories), t.calories), 100.0)
  }

  /** `x / d * 100 < p` for a positive numeric goal is `x < p% of d`. */
  lemma PercentBelow(x: real, d: real, p: real)
    requires d > 0.0
    ensures Below(Percent(x, Js.Num(d)), p) <==> x < p * d / 100.0
  {
    assert Percent(x, Js.Num(d)) == Finite(x / d * 100.0);
    assert x / d * 100.0 < p <==> x < p * d / 100.0 by {
      assert x / d * 100.0 * d == x * 100.0;
    }
  }

  // ---------------------------------------------------------------- insights

  datatype CalorieStatus = BalancedCalories | LowCalories | HighCalories
  datatype MacroBalance = GoodBalance | NeedsProtein
  datatype MicroStatus = Adequate | LowFiber

  datatype Tip = AddSnacks | MoreProtein | MoreCarbs | MoreFat | MoreFiber
  {
    function Message(): string
    {
      match this
      case AddSnacks => "Consider adding healthy snacks to meet your calorie goals"
      case MoreProtein => "Increase protein intake with lean meats, eggs, or legumes"
      case MoreCarbs => "Add more complex carbohydrates like whole grains and vegetables"
      case MoreFat => "Include healthy fats like nuts, avocado, or olive oil"
      case MoreFiber => "Increase fiber intake with fruits, vegetables, and whole grains"
    }

    /** The position of the check that pushes this tip. */
    function Order(): nat
    {
      match this
      case AddSnacks => 0
      case MoreProtein => 1
      case MoreCarbs => 2
      case MoreFat => 3
      case MoreFiber => 4
    }
  }

  datatype Warning = OverCalories | HighSodium | HighSugar
  {
    function Message(): string
    {
      match this
      case OverCalories => "You are significantly over your calorie goal"
      case HighSodium => "Sodium intake is high - consider reducing processed foods"
      case HighSugar => "Sugar intake is high - limit added sugars"
    }

    function Order(): nat
    {
      match this
      case OverCalories => 0
      case HighSodium => 1
      case HighSugar => 2
    }
  }

  datatype Insights = Insights(
    calorieStatus: CalorieStatus,
    macroBalance: MacroBalance,
    micronutrients: MicroStatus,
    recommendations: seq<Tip>,
    warnings: seq<Warning>)

  /** `calorieStatus`: low under 80% of the goal, high over 120%, balanced otherwise (a NaN
      percentage is neither). */
  function CalorieStatusOf(cp: Ext): (s: CalorieStatus)
    ensures s == LowCalories <==> Below(cp, 80.0)
    ensures s == HighCalories <==> !Below(cp, 80.0) && Above(cp, 120.0)
  {
    if Below(cp, 80.0) then LowCalories else if Above(cp, 120.0) then HighCalories else BalancedCalories
  }

  /** For a positive calorie goal the status is a band around the goal: balanced exactly when the
      day's calories lie within 80% to 120% of it. */
  lemma {:induction false} CalorieBands(calories: real, goal: real)
    requires goal > 0.0
    ensures var s := CalorieStatusOf(Scale(Ratio(calories, goal), 100.0));
      && (s == LowCalories <==> calories < 0.8 * goal)
      && (s == HighCalories <==> calories > 1.2 * goal)
      && (s == BalancedCalories <==> 0.8 * goal <= calories <= 1.2 * goal)
  {
    var p := calories / goal * 100.0;
    assert Scale(Ratio(calories, goal), 100.0) == Finite(p);
    PercentOrder(calories, goal, 80.0);
    PercentOrder(calories, goal, 120.0);
  }

  /** A percentage of a positive goal compared with a bound, without the division. */
  lemma PercentOrder(x: real, goal: real, c: real)
    requires goal > 0.0
    ensures (x / goal * 100.0 < c) <==> (x * 100.0 < c * goal)
    ensures (x / goal * 100.0 > c) <==> (x * 100.0 > c * goal)
  {
    var p := x / goal * 100.0;
    assert p * goal == x * 100.0;
    ScaledOrder(p, c, goal);
    ScaledOrder(c, p, goal);
  }

  /** Multiplying by a positive factor keeps the order of two reals, both ways. */
  lemma ScaledOrder(a: real, b: real, g: real)
    requires g > 0.0
    ensures a < b <==> a * g < b * g
  {
    if a < b {
      assert (b - a) * g > 0.0;
    } else {
      assert (a - b) * g >= 0.0;
    }
  }

  predicate NeedsProteinTip(daily: Vector, t: Targets)
  {
    Below(Percent(Amount(daily, Protein), t.protein), 80.0)
  }

  predicate NeedsCarbTip(daily: Vector, t: Targets)
  {
    Below(Percent(Amount(daily, Carbohydrates), t.carbohydrates), 70.0)
  }

  predicate NeedsFatTip(daily: Vector, t: Targets)
  {
    Below(Percent(Amount(daily, Fat), t.fat), 70.0)
  }

  predicate TipsInOrder(tips: seq<Tip>)
  {
    forall i, j :: 0 <= i < j < |tips| ==> tips[i].Order() < tips[j].Order()
  }

  predicate WarningsInOrder(ws: seq<Warning>)
  {
    forall i, j :: 0 <= i < j < |ws| ==> ws[i].Order() < ws[j].Order()
  }

  /** `recommendations.push(tip)` after tips of earlier checks only. */
  function PushTip(recs: seq<Tip>, tip: Tip): (r: seq<Tip>)
    requires TipsInOrder(recs) && forall k :: 0 <= k < |recs| ==> recs[k].Order() < tip.Order()
    ensures TipsInOrder(r)
    ensures forall x :: x in r <==> x in recs || x == tip
    ensures forall k :: 0 <= k < |r| ==> r[k].Order() <= tip.Order()
  {
    recs + [tip]
  }

  /** The calorie and protein checks. */
  method CalorieAndProteinTips(daily: Vector, t: Targets)
    returns (status: CalorieStatus, balance: MacroBalance, recs: seq<Tip>)
    ensures status == CalorieStatusOf(CaloriePercent(daily, t))
    ensures forall x :: x in recs <==> (x == AddSnacks && status == LowCalories) || (x == MoreProtein && NeedsProteinTip(daily, t))
    ensures balance == NeedsProtein <==> NeedsProteinTip(daily, t)
    ensures TipsInOrder(recs) && forall k :: 0 <= k < |recs| ==> recs[k].Order() < 2
  {
    var cp := CaloriePercent(daily, t);
    status, balance, recs := BalancedCalories, GoodBalance, [];
    if Below(cp, 80.0) {
      status := LowCalories;
      recs := PushTip(recs, AddSnacks);
    } else if Above(cp, 120.0) {
      status := HighCalories;
    }
    if NeedsProteinTip(daily, t) {
      balance := NeedsProtein;
      recs := PushTip(recs, MoreProtein);
    }
  }

  /** The carbohydrate, fat and fiber checks, after the first two. */
  method RemainingTips(daily: Vector, t: Targets, recs: seq<Tip>) returns (micro: MicroStatus, recs': seq<Tip>)
    requires TipsInOrder(recs) && forall k :: 0 <= k < |recs| ==> recs[k].Order() < 2
    ensures forall x :: x in recs' <==>
      (x in recs || (x == MoreCarbs && NeedsCarbTip(daily, t))
       || (x == MoreFat && NeedsFatTip(daily, t)) || (x == MoreFiber && Amount(daily, Fiber) < 25.0))
    ensures micro == LowFiber <==> Amount(daily, Fiber) < 25.0
    ensures TipsInOrder(recs')
  {
    micro, recs' := Adequate, recs;
    if NeedsCarbTip(daily, t) {
      recs' := PushTip(recs', MoreCarbs);
    }
    if NeedsFatTip(daily, t) {
      recs' := PushTip(recs', MoreFat);
    }
    if Amount(daily, Fiber) < 25.0 {
      micro := LowFiber;
      recs' := PushTip(recs', MoreFiber);
    }
  }

  /** The warnings, pushed in check order. */
  method Warn(daily: Vector, t: Targets) returns (warns: seq<Warning>)
    ensures OverCalories in warns <==> CalorieStatusOf(CaloriePercent(daily, t)) == HighCalories
    ensures HighSodium in warns <==> Amount(daily, Sodium) > 2300.0
    ensures HighSugar in warns <==> Amount(daily, Sugar) > 50.0
    ensures WarningsInOrder(warns)
  {
    warns := [];
    var cp := CaloriePercent(daily, t);
    if !Below(cp, 80.0) && Above(cp, 120.0) {
      warns := warns + [OverCalories];
    }
    if Amount(daily, Sodium) > 2300.0 {
      warns := warns + [HighSodium];
    }
    assert forall w :: w in warns ==> w.Order() < 2;
    if Amount(daily, Sugar) > 50.0 {
      warns := warns + [HighSugar];
    }
  }

  /** `generateNutritionalInsights(totals, goals)` for the day's totals. */
  method GenerateNutritionalInsights(daily: Vector, t: Targets) returns (ins: Insights)
    ensures ins.calorieStatus == CalorieStatusOf(CaloriePercent(daily, t))
    ensures AddSnacks in ins.recommendations <==> ins.calorieStatus == LowCalories
    ensures OverCalories in ins.warnings <==> ins.calorieStatus == HighCalories
    ensures MoreProtein in ins.recommendations <==> NeedsProteinTip(daily, t)
    ensures ins.macroBalance == NeedsProtein <==> NeedsProteinTip(daily, t)
    ensures MoreCarbs in ins.recommendations <==> NeedsCarbTip(daily, t)
    ensures MoreFat in ins.recommendations <==> NeedsFatTip(daily, t)
    ensures MoreFiber in ins.recommendations <==> Amount(daily, Fiber) < 25.0
    ensures ins.micronutrients == LowFiber <==> Amount(daily, Fiber) < 25.0
    ensures HighSodium in ins.warnings <==> Amount(daily, Sodium) > 2300.0
    ensures HighSugar in ins.warnings <==> Amount(daily, Sugar) > 50.0
    ensures TipsInOrder(ins.recommendations) && WarningsInOrder(ins.warnings)
  {
    var status, balance, first := CalorieAndProteinTips(daily, t);
    var micro, recs := RemainingTips(daily, t, first);
    var warns := Warn(daily, t);
    ins := Insights(status, balance, micro, recs, warns);
  }

  /** As written, dividing by the stored macro objects gives NaN, so no macro advice is ever given,
      whatever the day holds. */
  lemma AsWrittenNoMacroTips(daily: Vector, g: Goals.GoalsRecord)
    ensures !NeedsProteinTip(daily, TargetsAsWritten(g))
    ensures !NeedsCarbTip(daily, TargetsAsWritten(g))
    ensures !NeedsFatTip(daily, TargetsAsWritten(g))
  {
  }

  /** Corrected, with a positive protein goal in grams, the protein tip is given exactly when the
      day's protein is under 80% of it. */
  lemma CorrectedProteinTip(daily: Vector, g: Goals.GoalsRecord, grams: real)
    requires g.macronutrients.protein.Some? && g.macronutrients.protein.value.grams == Js.Num(grams)
    requires grams > 0.0
    ensures NeedsProteinTip(daily, TargetsCorrected(g)) <==> Amount(daily, Protein) < 0.8 * grams
  {
    PercentBelow(Amount(daily, Protein), grams, 80.0);
  }

  // ---------------------------------------------------------------- trends

  /** `reduce((a, b) => a + b, 0)` */
  function Sum(xs: seq<real>): real
  {
    if xs == [] then 0.0 else Sum(xs[..|xs| - 1]) + xs[|xs| - 1]
  }

  /** The mean of a non-empty series, or 0 for an empty one. */
  function Mean(xs: seq<real>): real
  {
    if |xs| == 0 then 0.0 else Sum(xs) / |xs| as real
  }

  lemma {:induction false} SumBounds(xs: seq<real>, lo: real, hi: real)
    requires forall i :: 0 <= i < |xs| ==> lo <= xs[i] <= hi
    ensures |xs| as real * lo <= Sum(xs) <= |xs| as real * hi
  {
    if xs != [] {
      SumBounds(xs[..|xs| - 1], lo, hi);
    }
  }

  /** The mean of a series lies within any bounds of its values. */
  lemma MeanWithinBounds(xs: seq<real>, lo: real, hi: real)
    requires |xs| > 0
    requires forall i :: 0 <= i < |xs| ==> lo <= xs[i] <= hi
    ensures lo <= Mean(xs) <= hi
  {
    SumBounds(xs, lo, hi);
    var n := |xs| as real;
    assert Mean(xs) == Sum(xs) / n;
    assert lo * n / n == lo && hi * n / n == hi;
    DivideMonotone(lo * n, Sum(xs), n);
    DivideMonotone(Sum(xs), hi * n, n);
  }

  lemma DivideMonotone(a: real, b: real, n: real)
    requires n > 0.0 && a <= b
    ensures a / n <= b / n
  {
    assert b / n - a / n == (b - a) / n;
  }

  datatype Series = Series(calories: seq<real>, protein: seq<real>, carbohydrates: seq<real>, fat: seq<real>,
                           dates: seq<string>)

  datatype Averages = Averages(calories: real, protein: real, carbohydrates: real, fat: real)

  datatype Trends = Trends(trends: Series, averages: Averages)

  /** The rounded daily total of one field of a stored log, read as the store files it: its snacks
      sit under "snacks", a key the aggregation has no bucket for. */
  function DayTotal(log: FoodLogs.DailyLog, cat: map<string, Foods.Food>, n: Nutrient): real
    requires AnalysisTotals.CatalogueReadable(cat)
  {
    Amount(AnalysisTotals.DailyNutrition(AnalysisTotals.StoreMeals(log.meals), cat).daily, n)
  }

  /** The calorie average is rounded to a whole number, the others to one decimal; 0 when no day
      was logged. */
  function AveragesOf(s: Series): Averages
  {
    Averages(if |s.calories| > 0 then Round(Mean(s.calories)) as real else 0.0,
             if |s.protein| > 0 then RoundTenth(Mean(s.protein)) else 0.0,
             if |s.carbohydrates| > 0 then RoundTenth(Mean(s.carbohydrates)) else 0.0,
             if |s.fat| > 0 then RoundTenth(Mean(s.fat)) else 0.0)
  }

  /** The averages of `getNutritionalTrends` over the logs the date range returned, in order. */
  method GetNutritionalTrends(logs: seq<(string, FoodLogs.DailyLog)>, cat: map<string, Foods.Food>)
    returns (r: Trends)
    requires AnalysisTotals.CatalogueReadable(cat)
    ensures |r.trends.calories| == |r.trends.protein| == |r.trends.carbohydrates| == |r.trends.fat| == |logs|
    ensures |r.trends.dates| == |logs|
    ensures forall i :: 0 <= i < |logs| ==>
      && r.trends.dates[i] == logs[i].0
      && r.trends.calories[i] == DayTotal(logs[i].1, cat, Calories)
      && r.trends.protein[i] == DayTotal(logs[i].1, cat, Protein)
      && r.trends.carbohydrates[i] == DayTotal(logs[i].1, cat, Carbohydrates)
      && r.trends.fat[i] == DayTotal(logs[i].1, cat, Fat)
    ensures r.averages == AveragesOf(r.trends)
  {
    var s := Series([], [], [], [], []);
    for i := 0 to |logs|
      invariant |s.calories| == |s.protein| == |s.carbohydrates| == |s.fat| == |s.dates| == i
      invariant forall k :: 0 <= k < i ==>
        && s.dates[k] == logs[k].0
        && s.calories[k] == DayTotal(logs[k].1, cat, Calories)
        && s.protein[k] == DayTotal(logs[k].1, cat, Protein)
        && s.carbohydrates[k] == DayTotal(logs[k].1, cat, Carbohydrates)
        && s.fat[k] == DayTotal(logs[k].1, cat, Fat)
    {
      var totals := AnalysisTotals.CalculateDailyNutritionTotals(AnalysisTotals.StoreMeals(logs[i].1.meals), cat);
      s := Series(s.calories + [Amount(totals.daily, Calories)], s.protein + [Amount(totals.daily, Protein)],
                  s.carbohydrates + [Amount(totals.daily, Carbohydrates)], s.fat + [Amount(totals.daily, Fat)],
                  s.dates + [logs[i].0]);
    }
    r := Trends(s, AveragesOf(s));
  }

  /** The rounded calorie average of a non-empty series stays within half a calorie of its range. */
  lemma CalorieAverageWithinRange(s: Series, lo: real, hi: real)
    requires |s.calories| > 0
    requires forall i :: 0 <= i < |s.calories| ==> lo <= s.calories[i] <= hi
    ensures lo - 0.5 <= AveragesOf(s).calories <= hi + 0.5
  {
    MeanWithinBounds(s.calories, lo, hi);
    RoundBounds(Mean(s.calories));
  }

  // ---------------------------------------------------------------- meal targets and suggestions

  /** `mealCalorieTargets[mealType]` as a share of the calorie goal; 0 for a meal the table does not
      hold. */
  function MealShare(mealType: string): real
  {
    if mealType == "breakfast" then 0.25
    else if mealType == "lunch" then 0.35
    else if mealType == "dinner" then 0.30
    else if mealType == "snack" then 0.10
    else 0.0
  }

  /** `Math.min(mealCalorieTargets[mealType] || 0, remainingCalories)`: a name the table inherits
      from `Object.prototype` finds a function, and the minimum is NaN. */
  function MealTarget(goal: real, mealType: string, remaining: real): (t: Ext)
    ensures t.Finite? <==> !Js.IsInherited(mealType)
    ensures !t.Finite? ==> t == NaN
    ensures t.Finite? ==> t.v <= remaining && t.v <= MealShare(mealType) * goal
    ensures t.Finite? ==> t.v == remaining || t.v == MealShare(mealType) * goal
  {
    if Js.IsInherited(mealType) then NaN else Finite(Min(MealShare(mealType) * goal, remaining))
  }

  /** When the remaining calories cover the whole goal, the four meals' targets split it exactly. */
  lemma MealTargetsSplitGoal(goal: real, remaining: real)
    requires 0.0 <= goal <= remaining
    ensures MealTarget(goal, "breakfast", remaining).v + MealTarget(goal, "lunch", remaining).v
          + MealTarget(goal, "dinner", remaining).v + MealTarget(goal, "snack", remaining).v == goal
  {
    assert !Js.IsInherited("breakfast") && !Js.IsInherited("lunch");
    assert !Js.IsInherited("dinner") && !Js.IsInherited("snack");
  }

  /** `mealCategories[mealType] || ['general']`: `None` where the lookup finds an inherited member,
      which `for (const category of categories)` cannot iterate. */
  function MealCategories(mealType: string): (cs: Option<seq<string>>)
    ensures cs.None? <==> Js.IsInherited(mealType)
    ensures cs.Some? ==> |cs.value| > 0
    ensures cs.Some? && MealShare(mealType) == 0.0 ==> cs.value == ["general"]
  {
    if Js.IsInherited(mealType) then None
    else if mealType == "breakfast" then Some(["cereal", "dairy", "eggs", "bread", "fruit"])
    else if mealType == "lunch" then Some(["sandwich", "salad", "soup", "meat", "vegetables"])
    else if mealType == "dinner" then Some(["meat", "fish", "poultry", "vegetables", "grains"])
    else if mealType == "snack" then Some(["nuts", "fruit", "yogurt", "crackers"])
    else Some(["general"])
  }

  /** The foods the catalogue search found for each category, in order; a search that fails
      (`None`) is skipped. */
  function Gathered(categories: seq<string>, search: string -> Option<seq<Foods.Food>>): seq<Foods.Food>
  {
    if categories == [] then []
    else
      var found := search(categories[|categories| - 1]);
      Gathered(categories[..|categories| - 1], search) + (if found.Some? then found.value else [])
  }

  function FoodCalories(f: Foods.Food): real
  {
    Amount(f.nutrients, Calories)
  }

  /** Within 20% of the target either way. A food without a calories entry reads `undefined`,
      and both comparisons with it are false, so it never fits. */
  predicate Fits(f: Foods.Food, target: real)
  {
    Calories in f.nutrients && 0.8 * target <= f.nutrients[Calories] <= 1.2 * target
  }

  function Suitable(xs: seq<Foods.Food>, target: real): (r: seq<Foods.Food>)
    ensures forall i :: 0 <= i < |r| ==> Fits(r[i], target)
    ensures multiset(r) <= multiset(xs)
  {
    if xs == [] then []
    else
      var rest := Suitable(xs[..|xs| - 1], target);
      assert xs == xs[..|xs| - 1] + [xs[|xs| - 1]];
      if Fits(xs[|xs| - 1], target) then rest + [xs[|xs| - 1]] else rest
  }

  /** The filter keeps a food exactly when it is in the input and fits. */
  lemma {:induction false} SuitableExactly(xs: seq<Foods.Food>, target: real, f: Foods.Food)
    ensures f in Suitable(xs, target) <==> f in xs && Fits(f, target)
  {
    if xs != [] {
      SuitableExactly(xs[..|xs| - 1], target, f);
      assert xs == xs[..|xs| - 1] + [xs[|xs| - 1]];
    }
  }

  function Distance(f: Foods.Food, target: real): real
  {
    Abs(FoodCalories(f) - target)
  }

  predicate SortedByDistance(xs: seq<Foods.Food>, target: real)
  {
    forall i, j :: 0 <= i < j < |xs| ==> Distance(xs[i], target) <= Distance(xs[j], target)
  }

  /** Places `x` after every element at most as far from the target: the stable order of
      `Array.prototype.sort`. */
  function Insert(x: Foods.Food, xs: seq<Foods.Food>, target: real): (r: seq<Foods.Food>)
    ensures multiset(r) == multiset(xs) + multiset{x}
    ensures |r| == |xs| + 1
  {
    if xs == [] then [x]
    else if Distance(x, target) < Distance(xs[0], target) then [x] + xs
    else
      assert xs == [xs[0]] + xs[1..];
      [xs[0]] + Insert(x, xs[1..], target)
  }

  lemma {:induction false} InsertSorted(x: Foods.Food, xs: seq<Foods.Food>, target: real)
    requires SortedByDistance(xs, target)
    ensures SortedByDistance(Insert(x, xs, target), target)
  {
    if xs != [] && Distance(x, target) >= Distance(xs[0], target) {
      InsertSorted(x, xs[1..], target);
      var r := Insert(x, xs, target);
      forall i, j | 0 <= i < j < |r|
        ensures Distance(r[i], target) <= Distance(r[j], target)
      {
        if i == 0 {
          assert r[j] in multiset(Insert(x, xs[1..], target));
          assert r[j] in multiset(xs[1..]) + multiset{x};
          if r[j] in multiset(xs[1..]) {
            var k :| 0 <= k < |xs[1..]| && xs[1..][k] == r[j];
            assert xs[1 + k] == r[j];
          }
        }
      }
    }
  }

  /** The suitable foods ordered by distance from the target. */
  function SortByDistance(xs: seq<Foods.Food>, target: real): (r: seq<Foods.Food>)
    ensures multiset(r) == multiset(xs)
  {
    if xs == [] then []
    else
      assert xs == xs[..|xs| - 1] + [xs[|xs| - 1]];
      Insert(xs[|xs| - 1], SortByDistance(xs[..|xs| - 1], target), target)
  }

  lemma {:induction false} SortByDistanceSorted(xs: seq<Foods.Food>, target: real)
    ensures SortedByDistance(SortByDistance(xs, target), target)
  {
    if xs != [] {
      SortByDistanceSorted(xs[..|xs| - 1], target);
      InsertSorted(xs[|xs| - 1], SortByDistance(xs[..|xs| - 1], target), target);
    }
  }

  /** The per-category search loop; a category whose search throws is skipped. */
  method Gather(categories: seq<string>, search: string -> Option<seq<Foods.Food>>) returns (all: seq<Foods.Food>)
    ensures all == Gathered(categories, search)
  {
    all := [];
    for c := 0 to |categories|
      invariant all == Gathered(categories[..c], search)
    {
      assert categories[..c + 1][..c] == categories[..c];
      var found := search(categories[c]);
      if found.Some? {
        all := all + found.value;
      }
    }
    assert categories[..|categories|] == categories;
  }

  /** `allFoods.filter(...)` by the calorie window. */
  method Filter(all: seq<Foods.Food>, target: real) returns (suitable: seq<Foods.Food>)
    ensures suitable == Suitable(all, target)
  {
    suitable := [];
    for k := 0 to |all|
      invariant suitable == Suitable(all[..k], target)
    {
      assert all[..k + 1][..k] == all[..k];
      if Fits(all[k], target) {
        suitable := suitable + [all[k]];
      }
    }
    assert all[..|all|] == all;
  }

  /** The foods of the given categories that fit the target, nearest first. */
  function Ranked(categories: seq<string>, target: real, search: string -> Option<seq<Foods.Food>>): seq<Foods.Food>
  {
    SortByDistance(Suitable(Gathered(categories, search), target), target)
  }

  /** The first `n` of a ranked list: still sorted, still fitting, and no nearer than anything left. */
  lemma {:induction false} TopOfRanked(sorted: seq<Foods.Food>, pool: seq<Foods.Food>, n: nat, target: real)
    requires n <= |sorted| && SortedByDistance(sorted, target)
    requires multiset(sorted) == multiset(pool)
    requires forall i :: 0 <= i < |pool| ==> Fits(pool[i], target)
    ensures SortedByDistance(sorted[..n], target)
    ensures forall i :: 0 <= i < n ==> Fits(sorted[i], target)
    ensures multiset(sorted[..n]) <= multiset(pool)
    ensures forall i, j :: 0 <= i < n <= j < |sorted| ==> Distance(sorted[i], target) <= Distance(sorted[j], target)
  {
    assert sorted == sorted[..n] + sorted[n..];
    forall i | 0 <= i < n
      ensures Fits(sorted[i], target)
    {
      assert sorted[i] in multiset(pool);
      var k :| 0 <= k < |pool| && pool[k] == sorted[i];
    }
  }

  datatype SearchError = CategoriesNotIterable
  {
    function Message(): string
    {
      "Failed to search foods for meal: categories is not iterable"
    }
  }

  /** `searchFoodsForMeal(mealType, targetCalories)`: the catalogue search per category is the
      parameter `search`. A meal type the category table inherits fails; a target that is not a
      finite number makes the calorie window empty, since every comparison with it is false. */
  method SearchFoodsForMeal(mealType: string, target: Ext, search: string -> Option<seq<Foods.Food>>)
    returns (r: Result<seq<Foods.Food>, SearchError>)
    ensures r.Err? <==> Js.IsInherited(mealType)
    ensures r.Ok? && target.Finite? ==> r.value == TopRanked(MealCategories(mealType).value, target.v, search)
    ensures r.Ok? && !target.Finite? ==> r.value == []
  {
    var categories := MealCategories(mealType);
    if categories.None? {
      return Err(CategoriesNotIterable);
    }
    var all := Gather(categories.value, search);
    if !target.Finite? {
      return Ok([]);
    }
    var suitable := Filter(all, target.v);
    var sorted := SortByDistance(suitable, target.v);
    var n := if |sorted| < 5 then |sorted| else 5;
    r := Ok(sorted[..n]);
  }

  /** The first five of the ranked foods, or all of them when there are fewer. */
  function TopRanked(categories: seq<string>, target: real, search: string -> Option<seq<Foods.Food>>): seq<Foods.Food>
  {
    var ranked := Ranked(categories, target, search);
    ranked[..if |ranked| < 5 then |ranked| else 5]
  }

  /** What the search returns: min(5, number of suitable foods) foods, all in the window, nearest
      first, drawn from the search results, and none farther than a suitable food left out. */
  lemma TopRankedProperties(categories: seq<string>, target: real, search: string -> Option<seq<Foods.Food>>)
    ensures |TopRanked(categories, target, search)| ==
      if |Ranked(categories, target, search)| < 5 then |Ranked(categories, target, search)| else 5
    ensures forall i :: 0 <= i < |TopRanked(categories, target, search)| ==>
      Fits(TopRanked(categories, target, search)[i], target)
    ensures SortedByDistance(TopRanked(categories, target, search), target)
    ensures multiset(TopRanked(categories, target, search)) <= multiset(Gathered(categories, search))
    ensures forall i, j :: 0 <= i < |TopRanked(categories, target, search)| <= j < |Ranked(categories, target, search)| ==>
      Distance(TopRanked(categories, target, search)[i], target) <= Distance(Ranked(categories, target, search)[j], target)
  {
    var gathered := Gathered(categories, search);
    var suitable := Suitable(gathered, target);
    var sorted := SortByDistance(suitable, target);
    SortByDistanceSorted(suitable, target);
    var n := if |sorted| < 5 then |sorted| else 5;
    TopOfRanked(sorted, suitable, n, target);
    assert multiset(sorted[..n]) <= multiset(gathered);
  }

  datatype MealAdvice = MealAdvice(mealType: string, targetCalories: int, remainingCalories: int,
                                   recommendations: seq<Foods.Food>)

  /** The two ways `getMealRecommendations` fails: the user has no goals, or the search fails. */
  datatype AdviceError = GoalsMissing | SearchFailed(cause: SearchError)
  {
    function Message(): string
    {
      match this
      case GoalsMissing =>
        "Failed to get meal recommendations: Cannot read properties of null (reading 'calories')"
      case SearchFailed(cause) => "Failed to get meal recommendations: " + cause.Message()
    }
  }

  /** `getMealRecommendations(userId, mealType, remainingCalories)` given the user's stored goals:
      without goals the read of `goals.calories` fails; with them, a meal type inherited from
      `Object.prototype` makes the search fail. */
  method GetMealRecommendations(goals: Option<Goals.GoalsRecord>, mealType: string, remaining: real,
                                search: string -> Option<seq<Foods.Food>>)
    returns (r: Result<MealAdvice, AdviceError>)
    ensures r.Ok? <==> goals.Some? && !Js.IsInherited(mealType)
    ensures goals.None? ==> r == Err(GoalsMissing)
    ensures goals.Some? && Js.IsInherited(mealType) ==> r == Err(SearchFailed(CategoriesNotIterable))
    ensures r.Ok? ==> r.value.mealType == mealType
    ensures r.Ok? ==> r.value.targetCalories == Round(MealTarget(goals.value.calories, mealType, remaining).v)
    ensures r.Ok? ==> r.value.remainingCalories == Round(remaining)
    ensures r.Ok? ==>
      r.value.recommendations ==
      TopRanked(MealCategories(mealType).value, MealTarget(goals.value.calories, mealType, remaining).v, search)
    ensures r.Ok? ==> |r.value.recommendations| <= 5
    ensures r.Ok? ==> forall i :: 0 <= i < |r.value.recommendations| ==>
      Fits(r.value.recommendations[i], MealTarget(goals.value.calories, mealType, remaining).v)
  {
    if goals.None? {
      return Err(GoalsMissing);
    }
    var target := MealTarget(goals.value.calories, mealType, remaining);
    var found := SearchFoodsForMeal(mealType, target, search);
    if found.Err? {
      assert found.error == CategoriesNotIterable;
      return Err(SearchFailed(found.error));
    }
    TopRankedProperties(MealCategories(mealType).value, target.v, search);
    r := Ok(MealAdvice(mealType, Round(target.v), Round(remaining), found.value));
  }

  // ---------------------------------------------------------------- score

  datatype Grade = A | B | C | D | F
  {
    function Letter(): string
    {
      match this
      case A => "A"
      case B => "B"
      case C => "C"
      case D => "D"
      case F => "F"
    }

    function Message(): string
    {
      match this
      case A => "Excellent! You're meeting all your nutritional goals."
      case B => "Great job! You're doing well with your nutrition."
      case C => "Good progress! A few adjustments could help you reach your goals."
      case D => "You're on the right track, but there's room for improvement."
      case F => "Consider focusing on meeting your basic nutritional needs."
    }
  }

  /** The letter grade of an overall score: A from 90, B from 80, C from 70, D from 60, else F. */
  function GradeOf(score: Ext): (g: Grade)
    ensures g == A <==> AtLeast(score, 90.0)
    ensures g == F <==> !AtLeast(score, 60.0)
  {
    if AtLeast(score, 90.0) then A
    else if AtLeast(score, 80.0) then B
    else if AtLeast(score, 70.0) then C
    else if AtLeast(score, 60.0) then D
    else F
  }

  /** `getScoreMessage(score)`: its cut-points are those of the grade. */
  function GetScoreMessage(score: Ext): (m: string)
    ensures m == GradeOf(score).Message()
  {
    if AtLeast(score, 90.0) then "Excellent! You're meeting all your nutritional goals."
    else if AtLeast(score, 80.0) then "Great job! You're doing well with your nutrition."
    else if AtLeast(score, 70.0) then "Good progress! A few adjustments could help you reach your goals."
    else if AtLeast(score, 60.0) then "You're on the right track, but there's room for improvement."
    else "Consider focusing on meeting your basic nutritional needs."
  }

  datatype Breakdown = Breakdown(calories: Ext, protein: Ext, carbohydrates: Ext, fat: Ext, fiber: Ext)

  datatype Score = Score(overall: Ext, grade: Grade, breakdown: Breakdown, message: string)

  /** `Math.min(100, Math.round(ratio * 100))` */
  function Component(ratio: Ext): (c: Ext)
    ensures !Above(c, 100.0)
    ensures AtLeast(ratio, 1.0) ==> c == Finite(100.0)
  {
    var p := RoundExt(Scale(ratio, 100.0));
    if ratio.Finite? then
      RoundBounds(ratio.v * 100.0);
      MinExt(100.0, p)
    else MinExt(100.0, p)
  }

  /** The mean of the five components, rounded; it never exceeds 100. */
  function Overall(b: Breakdown): (o: Ext)
    requires !Above(b.calories, 100.0) && !Above(b.protein, 100.0) && !Above(b.carbohydrates, 100.0)
    requires !Above(b.fat, 100.0) && !Above(b.fiber, 100.0)
    ensures !Above(o, 100.0)
    ensures b == Breakdown(Finite(100.0), Finite(100.0), Finite(100.0), Finite(100.0), Finite(100.0)) ==> o == Finite(100.0)
    ensures (b.calories.NaN? || b.protein.NaN? || b.carbohydrates.NaN? || b.fat.NaN? || b.fiber.NaN?) ==> o.NaN?
  {
    var sum := Add(Add(Add(Add(b.calories, b.protein), b.carbohydrates), b.fat), b.fiber);
    if sum.Finite? then
      RoundBounds(sum.v * 0.2);
      RoundExt(Scale(sum, 0.2))
    else RoundExt(Scale(sum, 0.2))
  }

  /** `calculateNutritionalScore(totals, goals)` */
  function CalculateNutritionalScore(daily: Vector, t: Targets): (s: Score)
    ensures !Above(s.breakdown.calories, 100.0) && !Above(s.breakdown.protein, 100.0)
    ensures !Above(s.breakdown.carbohydrates, 100.0) && !Above(s.breakdown.fat, 100.0)
    ensures !Above(s.breakdown.fiber, 100.0)
    ensures !Above(s.overall, 100.0)
    ensures s.grade == GradeOf(s.overall)
    ensures s.message == s.grade.Message()
  {
    var b := Breakdown(
      Component(Ratio(Amount(daily, Calories), t.calories)),
      Component(Divide(Amount(daily, Protein), t.protein)),
      Component(Divide(Amount(daily, Carbohydrates), t.carbohydrates)),
      Component(Divide(Amount(daily, Fat), t.fat)),
      Component(Ratio(Amount(daily, Fiber), 25.0)));
    var o := Overall(b);
    Score(o, GradeOf(o), b, GetScoreMessage(o))
  }

  /** Meeting every goal in full, with at least 25 g of fiber, scores 100 and an A. */
  lemma FullMarks(daily: Vector, t: Targets, protein: real, carbohydrates: real, fat: real)
    requires t.calories > 0.0 && t.protein == Js.Num(protein) && t.carbohydrates == Js.Num(carbohydrates)
    requires t.fat == Js.Num(fat) && protein > 0.0 && carbohydrates > 0.0 && fat > 0.0
    requires Amount(daily, Calories) >= t.calories && Amount(daily, Protein) >= protein
    requires Amount(daily, Carbohydrates) >= carbohydrates && Amount(daily, Fat) >= fat
    requires Amount(daily, Fiber) >= 25.0
    ensures CalculateNutritionalScore(daily, t).overall == Finite(100.0)
    ensures CalculateNutritionalScore(daily, t).grade == A
  {
    RatioAtLeastOne(Amount(daily, Calories), t.calories);
    RatioAtLeastOne(Amount(daily, Protein), protein);
    RatioAtLeastOne(Amount(daily, Carbohydrates), carbohydrates);
    RatioAtLeastOne(Amount(daily, Fat), fat);
    RatioAtLeastOne(Amount(daily, Fiber), 25.0);
  }

  lemma RatioAtLeastOne(x: real, d: real)
    requires d > 0.0 && x >= d
    ensures AtLeast(Ratio(x, d), 1.0)
  {
    assert x / d * d == x;
  }

  /** As written, every macro component is NaN, so the overall score is NaN and the grade is F,
      whatever the day holds. */
  lemma AsWrittenScoreIsF(daily: Vector, g: Goals.GoalsRecord)
    ensures CalculateNutritionalScore(daily, TargetsAsWritten(g)).overall == NaN
    ensures CalculateNutritionalScore(daily, TargetsAsWritten(g)).grade == F
  {
    var t := TargetsAsWritten(g);
    assert Divide(Amount(daily, Protein), t.protein) == NaN;
    assert Component(NaN) == NaN;
    var s := CalculateNutritionalScore(daily, t);
    assert s.breakdown.protein == NaN;
  }
}
