/** The body-metric formulas of services/nutritionalCalculationService.js: BMR, TDEE, BMI, the
    macronutrient split, target calories, and the daily totals and deficit analysis. */
module Calculation {
  import opened Wrappers
  import Js
  import Text
  import opened Numeric
  import opened Nutrients

  datatype CalcError =
    | BmrInputsRequired | BmrInputsNotPositive
    | TdeeInputsRequired | InvalidActivityLevel
    | BmiInputsRequired | BmiInputsNotPositive
    | CaloriesNotPositive | PercentagesNotHundred
    | TargetInputsRequired | InvalidGoal
    | AnalysisInputsRequired
  {
    function Message(): string
    {
      match this
      case BmrInputsRequired => "All parameters (weight, height, age, gender) are required"
      case BmrInputsNotPositive => "Weight, height, and age must be positive numbers"
      case TdeeInputsRequired => "BMR and activity level are required"
      case InvalidActivityLevel =>
        "Invalid activity level. Must be one of: sedentary, lightly_active, moderately_active, very_active, extremely_active"
      case BmiInputsRequired => "Weight and height are required"
      case BmiInputsNotPositive => "Weight and height must be positive numbers"
      case CaloriesNotPositive => "Total calories must be a positive number"
      case PercentagesNotHundred => "Macronutrient percentages must add up to 100%"
      case TargetInputsRequired => "TDEE and goal are required"
      case InvalidGoal => "Invalid goal. Must be: weight_loss, weight_gain, or maintenance"
      case AnalysisInputsRequired => "Food log and goals are required"
    }
  }

  // ---------------------------------------------------------------- BMR

  datatype Sex = Male | Female

  /** The Mifflin-St Jeor equation: 10 kg + 6.25 cm - 5 years, then +5 for men and -161 for women. */
  function MifflinStJeor(weight: real, height: real, age: real, sex: Sex): real
  {
    10.0 * weight + 6.25 * height - 5.0 * age + (if sex == Male then 5.0 else -161.0)
  }

  /** Every gender string other than "male" in any letter case takes the female constant. */
  function SexOf(gender: string): Sex
  {
    if Text.ToLower(gender) == "male" then Male else Female
  }

  /** `calculateBMR`: a zero (falsy) argument is reported before a negative one. */
  function CalculateBMR(weight: real, height: real, age: real, gender: string): (r: Result<real, CalcError>)
    ensures r.Ok? <==> weight > 0.0 && height > 0.0 && age > 0.0 && gender != ""
    ensures (weight == 0.0 || height == 0.0 || age == 0.0 || gender == "") ==> r == Err(BmrInputsRequired)
    ensures r.Ok? ==> r.value == MifflinStJeor(weight, height, age, SexOf(gender))
  {
    if weight == 0.0 || height == 0.0 || age == 0.0 || gender == "" then Err(BmrInputsRequired)
    else if weight <= 0.0 || height <= 0.0 || age <= 0.0 then Err(BmrInputsNotPositive)
    else Ok(MifflinStJeor(weight, height, age, SexOf(gender)))
  }

  /** For the same body, the male BMR exceeds the female BMR by 166 kcal, and BMR grows with weight
      and height and falls with age. */
  lemma BmrShape(w: real, h: real, a: real, w': real, h': real, a': real)
    requires w <= w' && h <= h' && a >= a'
    ensures MifflinStJeor(w, h, a, Male) - MifflinStJeor(w, h, a, Female) == 166.0
    ensures forall s :: MifflinStJeor(w, h, a, s) <= MifflinStJeor(w', h', a', s)
  {
  }

  /** The unit test's call: 70 kg, 175 cm, 25 years, "male". */
  lemma BmrExample()
    ensures CalculateBMR(70.0, 175.0, 25.0, "male") == Ok(1673.75)
    ensures CalculateBMR(70.0, 175.0, 25.0, "MALE") == Ok(1673.75)
  {
    assert Text.ToLower("male") == "male";
    assert Text.ToLower("MALE") == "male";
  }

  // ---------------------------------------------------------------- TDEE

  datatype ActivityLevel = Sedentary | LightlyActive | ModeratelyActive | VeryActive | ExtremelyActive
  {
    /** The key of the multiplier table. */
    function Key(): string
    {
      match this
      case Sedentary => "sedentary"
      case LightlyActive => "lightly_active"
      case ModeratelyActive => "moderately_active"
      case VeryActive => "very_active"
      case ExtremelyActive => "extremely_active"
    }

    function Multiplier(): real
    {
      match this
      case Sedentary => 1.2
      case LightlyActive => 1.375
      case ModeratelyActive => 1.55
      case VeryActive => 1.725
      case ExtremelyActive => 1.9
    }
  }

  /** `activityMultipliers[level.toLowerCase()]`, as the level it names. */
  function ParseActivity(level: string): (r: Option<ActivityLevel>)
    ensures r.Some? ==> r.value.Key() == Text.ToLower(level)
    ensures r.None? ==> forall l: ActivityLevel :: l.Key() != Text.ToLower(level)
  {
    var k := Text.ToLower(level);
    if k == "sedentary" then Some(Sedentary)
    else if k == "lightly_active" then Some(LightlyActive)
    else if k == "moderately_active" then Some(ModeratelyActive)
    else if k == "very_active" then Some(VeryActive)
    else if k == "extremely_active" then Some(ExtremelyActive)
    else None
  }

  /** `calculateTDEE`: a zero BMR or an empty level is refused before the table is consulted; any BMR
      other than zero, negative ones included, is accepted. A level naming a member the table
      inherits from `Object.prototype` ("constructor", "__proto__", ...) finds a truthy non-number,
      so the check passes and the product, and the TDEE, is NaN. */
  function CalculateTDEE(bmr: real, level: string): (r: Result<Ext, CalcError>)
    ensures (bmr == 0.0 || level == "") ==> r == Err(TdeeInputsRequired)
    ensures r.Ok? <==> bmr != 0.0 && level != "" &&
                       (ParseActivity(level).Some? || Js.IsInherited(Text.ToLower(level)))
    ensures r.Ok? && ParseActivity(level).Some? ==>
      r.value == Finite(Round(bmr * ParseActivity(level).value.Multiplier()) as real)
    ensures r.Ok? && ParseActivity(level).None? ==> r.value == NaN
  {
    if bmr == 0.0 || level == "" then Err(TdeeInputsRequired)
    else
      match ParseActivity(level)
      case Some(l) => Ok(Finite(Round(bmr * l.Multiplier()) as real))
      case None => if Js.IsInherited(Text.ToLower(level)) then Ok(NaN) else Err(InvalidActivityLevel)
  }

  /** No activity level's key is an inherited name, so the two kinds of hit never overlap. */
  lemma ActivityKeysOwn(l: ActivityLevel)
    ensures !Js.IsInherited(l.Key())
  {
  }

  /** An inherited name in any letter case gives NaN rather than an error. */
  lemma InheritedLevelIsNaN(bmr: real)
    requires bmr != 0.0
    ensures CalculateTDEE(bmr, "Constructor") == Ok(NaN)
  {
    var k := Text.ToLower("Constructor");
    assert k == "constructor" by {
      assert |k| == 11 && k[0] == 'c';
    }
  }

  /** More activity never gives a lower TDEE for a positive BMR. */
  lemma TdeeMonotoneInActivity(bmr: real, l: ActivityLevel, l': ActivityLevel)
    requires bmr > 0.0 && l.Multiplier() <= l'.Multiplier()
    ensures Round(bmr * l.Multiplier()) <= Round(bmr * l'.Multiplier())
  {
    RoundMonotone(bmr * l.Multiplier(), bmr * l'.Multiplier());
  }

  /** The unit test's chain: BMR 1673.75 at "moderately_active" gives 2594 kcal. */
  lemma TdeeExample()
    ensures CalculateTDEE(1673.75, "moderately_active") == Ok(Finite(2594.0))
  {
    assert Text.ToLower("moderately_active") == "moderately_active";
  }

  // ---------------------------------------------------------------- BMI

  datatype BmiCategory = Underweight | NormalWeight | Overweight | Obese
  {
    function Name(): string
    {
      match this
      case Underweight => "Underweight"
      case NormalWeight => "Normal weight"
      case Overweight => "Overweight"
      case Obese => "Obese"
    }

    function Rank(): nat
    {
      match this
      case Underweight => 0
      case NormalWeight => 1
      case Overweight => 2
      case Obese => 3
    }
  }

  datatype Bmi = Bmi(value: real, category: BmiCategory)

  /** The category of an unrounded BMI, with the cut-points 18.5, 25 and 30 belonging to the upper class. */
  function CategoryOf(bmi: real): (c: BmiCategory)
    ensures c == Underweight <==> bmi < 18.5
    ensures c == NormalWeight <==> 18.5 <= bmi < 25.0
    ensures c == Overweight <==> 25.0 <= bmi < 30.0
    ensures c == Obese <==> 30.0 <= bmi
  {
    if bmi < 18.5 then Underweight
    else if bmi < 25.0 then NormalWeight
    else if bmi < 30.0 then Overweight
    else Obese
  }

  /** A larger BMI never falls in a lower category. */
  lemma CategoryMonotone(x: real, y: real)
    requires x <= y
    ensures CategoryOf(x).Rank() <= CategoryOf(y).Rank()
  {
  }

  /** kg / m^2, with the height given in centimetres. */
  function BodyMassIndex(weight: real, height: real): real
    requires height > 0.0
  {
    var m := height / 100.0;
    weight / (m * m)
  }

  /** `calculateBMI`: the value is rounded to one decimal, but the category is taken from the
      unrounded index. */
  function CalculateBMI(weight: real, height: real): (r: Result<Bmi, CalcError>)
    ensures r.Ok? <==> weight > 0.0 && height > 0.0
    ensures (weight == 0.0 || height == 0.0) ==> r == Err(BmiInputsRequired)
    ensures r.Ok? ==> r.value.category == CategoryOf(BodyMassIndex(weight, height))
    ensures r.Ok? ==> Abs(r.value.value - BodyMassIndex(weight, height)) <= 0.05
  {
    if weight == 0.0 || height == 0.0 then Err(BmiInputsRequired)
    else if weight <= 0.0 || height <= 0.0 then Err(BmiInputsNotPositive)
    else
      var bmi := BodyMassIndex(weight, height);
      RoundTenthBounds(bmi);
      Ok(Bmi(RoundTenth(bmi), CategoryOf(bmi)))
  }

  /** At a fixed height, a heavier person never gets a lower category. */
  lemma BmiCategoryMonotoneInWeight(w: real, w': real, h: real)
    requires 0.0 < w <= w' && h > 0.0
    ensures CalculateBMI(w, h).value.category.Rank() <= CalculateBMI(w', h).value.category.Rank()
  {
    var m := h / 100.0;
    assert m * m > 0.0;
    assert w / (m * m) <= w' / (m * m);
    CategoryMonotone(BodyMassIndex(w, h), BodyMassIndex(w', h));
  }

  /** Because the category comes from the unrounded index, a reported value of 25.0 can still carry
      the category "Normal weight". */
  lemma BmiValueAndCategoryCanDisagree()
    ensures CalculateBMI(24.96, 100.0) == Ok(Bmi(25.0, NormalWeight))
  {
    assert BodyMassIndex(24.96, 100.0) == 24.96;
  }

  /** The unit test's call: 70 kg at 175 cm. */
  lemma BmiExample()
    ensures CalculateBMI(70.0, 175.0) == Ok(Bmi(22.9, NormalWeight))
  {
    assert BodyMassIndex(70.0, 175.0) == 70.0 / 3.0625;
    assert 229.0 <= 10.0 * (70.0 / 3.0625) + 0.5 < 230.0;
  }

  // ---------------------------------------------------------------- macronutrients

  /** The requested percentages; `None` is an absent field. */
  datatype Distribution = Distribution(protein: Option<real>, carbohydrates: Option<real>, fat: Option<real>)

  const DefaultDistribution := Distribution(None, None, None)

  /** `distribution.x || fallback`: a missing or zero percentage takes the default. */
  function Percent(p: Option<real>, fallback: real): (r: real)
    ensures (p.None? || p.value == 0.0) ==> r == fallback
    ensures p.Some? && p.value != 0.0 ==> r == p.value
  {
    if p.Some? && p.value != 0.0 then p.value else fallback
  }

  datatype MacroShare = MacroShare(calories: int, grams: real)

  datatype Macros = Macros(protein: MacroShare, carbohydrates: MacroShare, fat: MacroShare)

  /** The share of `total` given by `percent`, with `kcalPerGram` calories in each gram. */
  function Share(total: real, percent: real, kcalPerGram: real): MacroShare
    requires kcalPerGram > 0.0
  {
    var c := total * percent / 100.0;
    MacroShare(Round(c), RoundTenth(c / kcalPerGram))
  }

  /** `calculateMacronutrients`: protein and carbohydrates carry 4 kcal per gram, fat 9. */
  function CalculateMacronutrients(total: real, d: Distribution): (r: Result<Macros, CalcError>)
    ensures total <= 0.0 ==> r == Err(CaloriesNotPositive)
    ensures r.Ok? <==>
      total > 0.0 && Abs(Percent(d.protein, 25.0) + Percent(d.carbohydrates, 45.0) + Percent(d.fat, 30.0) - 100.0) <= 0.1
    ensures r.Ok? ==> r.value.protein == Share(total, Percent(d.protein, 25.0), 4.0)
    ensures r.Ok? ==> r.value.carbohydrates == Share(total, Percent(d.carbohydrates, 45.0), 4.0)
    ensures r.Ok? ==> r.value.fat == Share(total, Percent(d.fat, 30.0), 9.0)
  {
    if total <= 0.0 then Err(CaloriesNotPositive)
    else
      var p := Percent(d.protein, 25.0);
      var c := Percent(d.carbohydrates, 45.0);
      var f := Percent(d.fat, 30.0);
      if Abs(p + c + f - 100.0) > 0.1 then Err(PercentagesNotHundred)
      else Ok(Macros(Share(total, p, 4.0), Share(total, c, 4.0), Share(total, f, 9.0)))
  }

  /** The default 25/45/30 split is always accepted for positive calories. */
  lemma DefaultSplitAccepted(total: real)
    requires total > 0.0
    ensures CalculateMacronutrients(total, DefaultDistribution).Ok?
  {
  }

  /** The calories the goals store derives back from a share's grams, `Math.round(grams * k)`, are
      within one kilocalorie of the share's own calories. */
  lemma {:induction false} ShareCaloriesAgree(total: real, percent: real, k: real)
    requires 0.0 < k <= 9.0
    ensures var s := Share(total, percent, k);
      -1 <= Round(s.grams * k) - s.calories <= 1
  {
    var c := total * percent / 100.0;
    var s := Share(total, percent, k);
    RoundTenthBounds(c / k);
    RoundBounds(c);
    var e := s.grams - c / k;
    assert -0.05 < e <= 0.05;
    assert s.grams * k == c + e * k;
    ScaleBounds(e, 0.05, k);
    assert c - 0.45 < s.grams * k <= c + 0.45;
    RoundBounds(s.grams * k);
    assert s.calories == Round(c);
    assert (Round(s.grams * k) - s.calories) as real < 1.5;
    assert (Round(s.grams * k) - s.calories) as real > -1.5;
  }

  /** A product with a positive factor keeps the factor's bounds. */
  lemma ScaleBounds(e: real, b: real, k: real)
    requires k > 0.0 && -b < e <= b
    ensures -b * k < e * k <= b * k
  {
    assert (e + b) * k > 0.0;
    assert (b - e) * k >= 0.0;
  }

  /** The unit test's call: 2000 kcal with the default split is 125 g protein, 225 g carbohydrates
      and 66.7 g fat. */
  lemma MacrosExample()
    ensures CalculateMacronutrients(2000.0, DefaultDistribution)
         == Ok(Macros(MacroShare(500, 125.0), MacroShare(900, 225.0), MacroShare(600, 66.7)))
  {
    assert 667.0 <= 10.0 * (600.0 / 9.0) + 0.5 < 668.0;
  }

  // ---------------------------------------------------------------- target calories

  datatype Goal = WeightLoss | WeightGain | Maintenance

  function ParseGoal(goal: string): (r: Option<Goal>)
    ensures r == Some(WeightLoss) <==> Text.ToLower(goal) == "weight_loss"
    ensures r == Some(WeightGain) <==> Text.ToLower(goal) == "weight_gain"
    ensures r == Some(Maintenance) <==> Text.ToLower(goal) == "maintenance"
  {
    var k := Text.ToLower(goal);
    if k == "weight_loss" then Some(WeightLoss)
    else if k == "weight_gain" then Some(WeightGain)
    else if k == "maintenance" then Some(Maintenance)
    else None
  }

  /** A pound of body weight is 3500 kcal, spread over the 7 days of a week. */
  function DailyChange(weeklyChange: real): (r: real)
    ensures r == 500.0 * weeklyChange
  {
    weeklyChange * 3500.0 / 7.0
  }

  /** `calculateTargetCalories` */
  function CalculateTargetCalories(tdee: real, goal: string, weeklyChange: real): (r: Result<int, CalcError>)
    ensures (tdee == 0.0 || goal == "") ==> r == Err(TargetInputsRequired)
    ensures r.Ok? <==> tdee != 0.0 && goal != "" && ParseGoal(goal).Some?
    ensures r.Ok? && ParseGoal(goal) == Some(WeightLoss) ==> r.value == Round(tdee - 500.0 * weeklyChange)
    ensures r.Ok? && ParseGoal(goal) == Some(WeightGain) ==> r.value == Round(tdee + 500.0 * weeklyChange)
    ensures r.Ok? && ParseGoal(goal) == Some(Maintenance) ==> r.value == Round(tdee)
  {
    if tdee == 0.0 || goal == "" then Err(TargetInputsRequired)
    else
      var delta := DailyChange(weeklyChange);
      match ParseGoal(goal)
      case Some(WeightLoss) => Ok(Round(tdee - delta))
      case Some(WeightGain) => Ok(Round(tdee + delta))
      case Some(Maintenance) => Ok(Round(tdee))
      case None => Err(InvalidGoal)
  }

  /** For a non-negative weekly change, loss <= maintenance <= gain, and the gain and loss targets lie
      within one kilocalorie of 1000 kcal per pound apart. */
  lemma {:induction false} TargetsOrdered(tdee: real, weeklyChange: real)
    requires weeklyChange >= 0.0
    ensures Round(tdee - 500.0 * weeklyChange) <= Round(tdee) <= Round(tdee + 500.0 * weeklyChange)
    ensures Abs((Round(tdee + 500.0 * weeklyChange) - Round(tdee - 500.0 * weeklyChange)) as real
                - 1000.0 * weeklyChange) < 1.0
  {
    RoundMonotone(tdee - 500.0 * weeklyChange, tdee);
    RoundMonotone(tdee, tdee + 500.0 * weeklyChange);
    RoundBounds(tdee + 500.0 * weeklyChange);
    RoundBounds(tdee - 500.0 * weeklyChange);
  }

  // ---------------------------------------------------------------- daily totals

  /** A food of a meal; `nutrients` is absent when the object has none. */
  datatype FoodItem = FoodItem(nutrients: Option<Vector>)

  /** A meal of the log; `foods` is absent when the object has none. */
  datatype MealRecord = MealRecord(foods: Option<seq<FoodItem>>)

  /** The log as the calculator reads it; `meals` is absent (falsy) or an array. */
  datatype FoodLog = FoodLog(meals: Option<seq<MealRecord>>)

  /** The foods of a meal in order, none when the meal has no `foods`. */
  function FoodsOf(m: MealRecord): seq<FoodItem>
  {
    if m.foods.Some? then m.foods.value else []
  }

  /** Every food of every meal, meal by meal. */
  function AllFoods(meals: seq<MealRecord>): seq<FoodItem>
  {
    if meals == [] then [] else AllFoods(meals[..|meals| - 1]) + FoodsOf(meals[|meals| - 1])
  }

  /** The sum of nutrient `n` over `foods`, each counted once, a missing field or object as 0. */
  function NutrientSum(foods: seq<FoodItem>, n: Nutrient): real
  {
    if foods == [] then 0.0
    else
      var f := foods[|foods| - 1];
      NutrientSum(foods[..|foods| - 1], n) + (if f.nutrients.Some? then Amount(f.nutrients.value, n) else 0.0)
  }

  /** The seven daily fields as a set. */
  function DailyFieldSet(): set<Nutrient>
  {
    set n | n in DailyFields
  }

  /** The daily totals: each of the seven fields is the sum over every food of every meal, rounded
      to one decimal. */
  ghost function DailyTotalsOf(log: FoodLog): Vector
  {
    var foods := if log.meals.Some? then AllFoods(log.meals.value) else [];
    map n | n in DailyFields :: RoundTenth(NutrientSum(foods, n))
  }

  /** `calculateDailyTotals` */
  method CalculateDailyTotals(log: FoodLog) returns (totals: Vector)
    ensures totals == DailyTotalsOf(log)
    ensures totals.Keys == DailyFieldSet()
    ensures log.meals.None? ==> forall n :: n in totals ==> totals[n] == 0.0
  {
    totals := Zero(DailyFields);
    ghost var foods: seq<FoodItem> := [];
    if log.meals.Some? {
      var meals := log.meals.value;
      var i := 0;
      while i < |meals|
        invariant 0 <= i <= |meals|
        invariant foods == AllFoods(meals[..i])
        invariant totals.Keys == DailyFieldSet()
        invariant forall n :: n in totals ==> totals[n] == NutrientSum(foods, n)
      {
        assert meals[..i + 1][..i] == meals[..i];
        if meals[i].foods.Some? {
          var items := meals[i].foods.value;
          totals := AddFoods(totals, items);
          forall n | n in totals
            ensures totals[n] == NutrientSum(foods + items, n)
          {
            NutrientSumAppend(foods, items, n);
          }
          foods := foods + items;
        }
        i := i + 1;
      }
      assert meals[..i] == meals;
    }
    totals := RoundAll(totals);
  }

  /** The inner `forEach` over a meal's foods: each food's fields are added once, unscaled. */
  method AddFoods(start: Vector, items: seq<FoodItem>) returns (totals: Vector)
    ensures totals.Keys == start.Keys
    ensures forall n :: n in totals ==> totals[n] == start[n] + NutrientSum(items, n)
  {
    totals := start;
    for j := 0 to |items|
      invariant totals.Keys == start.Keys
      invariant forall n :: n in totals ==> totals[n] == start[n] + NutrientSum(items[..j], n)
    {
      assert items[..j + 1][..j] == items[..j];
      if items[j].nutrients.Some? {
        totals := AddScaled(totals, items[j].nutrients.value, 1.0);
      }
    }
    assert items[..|items|] == items;
  }

  /** Counting each food once: the raw total over the meals of two logs, joined, is the sum of the
      two raw totals. */
  lemma {:induction false} NutrientSumAppend(a: seq<FoodItem>, b: seq<FoodItem>, n: Nutrient)
    ensures NutrientSum(a + b, n) == NutrientSum(a, n) + NutrientSum(b, n)
    decreases |b|
  {
    if b == [] {
      assert a + b == a;
    } else {
      assert (a + b)[..|a + b| - 1] == a + b[..|b| - 1];
      NutrientSumAppend(a, b[..|b| - 1], n);
    }
  }

  /** The raw total of a day is the sum of the raw totals of its meals: adding a meal adds exactly
      its foods' nutrients, with no quantity scaling. */
  lemma {:induction false} MealAdds(meals: seq<MealRecord>, m: MealRecord, n: Nutrient)
    ensures NutrientSum(AllFoods(meals + [m]), n) == NutrientSum(AllFoods(meals), n) + NutrientSum(FoodsOf(m), n)
  {
    assert (meals + [m])[..|meals|] == meals;
    NutrientSumAppend(AllFoods(meals), FoodsOf(m), n);
  }

  // ---------------------------------------------------------------- deficit analysis

  /** The goal values the analyser subtracts from. */
  datatype DailyGoals = DailyGoals(calories: real, protein: real, carbohydrates: real, fat: real)

  datatype Deficits = Deficits(calories: real, protein: real, carbohydrates: real, fat: real)

  datatype Advice = OverCalories | UnderCalories | MoreProtein | MoreFat
  {
    function Message(): string
    {
      match this
      case OverCalories => "You are over your calorie goal. Consider reducing portion sizes."
      case UnderCalories => "You are significantly under your calorie goal. Consider adding healthy snacks."
      case MoreProtein => "Consider adding more protein-rich foods like lean meats, eggs, or legumes."
      case MoreFat => "Consider adding healthy fats like nuts, avocado, or olive oil."
    }

    /** The position of the check that emits this advice. */
    function Order(): nat
    {
      match this
      case OverCalories => 0
      case UnderCalories => 1
      case MoreProtein => 2
      case MoreFat => 3
    }
  }

  datatype Analysis = Analysis(totals: Vector, goals: DailyGoals, deficits: Deficits, recommendations: seq<Advice>)

  /** The recommendation rules of `analyzeDailyNutrition`, in the order the source checks them. */
  method Advise(d: Deficits) returns (recs: seq<Advice>)
    ensures OverCalories in recs <==> d.calories < 0.0
    ensures UnderCalories in recs <==> d.calories > 200.0
    ensures MoreProtein in recs <==> d.protein < 0.0
    ensures MoreFat in recs <==> d.fat < 0.0
    ensures forall i, j :: 0 <= i < j < |recs| ==> recs[i].Order() < recs[j].Order()
  {
    recs := [];
    if d.calories < 0.0 {
      recs := recs + [OverCalories];
    } else if d.calories > 200.0 {
      recs := recs + [UnderCalories];
    }
    if d.protein < 0.0 {
      recs := recs + [MoreProtein];
    }
    if d.fat < 0.0 {
      recs := recs + [MoreFat];
    }
  }

  /** `analyzeDailyNutrition`; `None` is a missing (null or undefined) argument. */
  method AnalyzeDailyNutrition(log: Option<FoodLog>, goals: Option<DailyGoals>) returns (r: Result<Analysis, CalcError>)
    ensures r.Err? <==> log.None? || goals.None?
    ensures r.Err? ==> r.error == AnalysisInputsRequired
    ensures r.Ok? ==> r.value.totals == DailyTotalsOf(log.value) && r.value.goals == goals.value
    ensures r.Ok? ==> var d := r.value.deficits; var t := r.value.totals; var g := goals.value;
      && d.calories == g.calories - t[Calories] && d.protein == g.protein - t[Protein]
      && d.carbohydrates == g.carbohydrates - t[Carbohydrates] && d.fat == g.fat - t[Fat]
    ensures r.Ok? ==> var d := r.value.deficits; var recs := r.value.recommendations;
      && (OverCalories in recs <==> d.calories < 0.0)
      && (UnderCalories in recs <==> d.calories > 200.0)
      && (MoreProtein in recs <==> d.protein < 0.0)
      && (MoreFat in recs <==> d.fat < 0.0)
    ensures r.Ok? ==> var recs := r.value.recommendations;
      forall i, j :: 0 <= i < j < |recs| ==> recs[i].Order() < recs[j].Order()
  {
    if log.None? || goals.None? {
      return Err(AnalysisInputsRequired);
    }
    var totals := CalculateDailyTotals(log.value);
    var g := goals.value;
    assert Calories in DailyFields && Protein in DailyFields && Carbohydrates in DailyFields && Fat in DailyFields;
    var d := Deficits(g.calories - totals[Calories], g.protein - totals[Protein],
                      g.carbohydrates - totals[Carbohydrates], g.fat - totals[Fat]);
    var recs := Advise(d);
    return Ok(Analysis(totals, g, d, recs));
  }
}
