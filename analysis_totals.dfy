/** `calculateDailyNutritionTotals` of services/nutritionalAnalysisService.js: the fifteen-field totals
    of a day and of each of its four meal buckets, with each entry's failure contained. */
module AnalysisTotals {
  import opened Wrappers
  import Js
  import opened Numeric
  import opened Nutrients
  import Foods
  import FoodLogs

  /** The meal buckets of `mealTotals`. */
  datatype Bucket = Breakfast | Lunch | Dinner | Snack

  /** `mealTotals[mealType]`: the bucket a key of the log's `meals` object names, if any. */
  function BucketOf(key: string): (b: Option<Bucket>)
    ensures b == Some(Breakfast) <==> key == "breakfast"
    ensures b == Some(Lunch) <==> key == "lunch"
    ensures b == Some(Dinner) <==> key == "dinner"
    ensures b == Some(Snack) <==> key == "snack"
  {
    if key == "breakfast" then Some(Breakfast)
    else if key == "lunch" then Some(Lunch)
    else if key == "dinner" then Some(Dinner)
    else if key == "snack" then Some(Snack)
    else None
  }

  /** A value of the log's `meals` object: an array of entries, or anything else. */
  datatype MealValue = Entries(es: seq<FoodLogs.Entry>) | NotArray

  /** `Object.entries(dailyLog.meals)`, in key order. */
  type MealsObject = seq<(string, MealValue)>

  /** The four bucket vectors of `mealTotals`. */
  datatype ByMeal = ByMeal(breakfast: Vector, lunch: Vector, dinner: Vector, snack: Vector)
  {
    function Get(b: Bucket): Vector
    {
      match b
      case Breakfast => breakfast
      case Lunch => lunch
      case Dinner => dinner
      case Snack => snack
    }

    function With(b: Bucket, v: Vector): (r: ByMeal)
      ensures r.Get(b) == v
      ensures forall c :: c != b ==> r.Get(c) == Get(c)
    {
      match b
      case Breakfast => this.(breakfast := v)
      case Lunch => this.(lunch := v)
      case Dinner => this.(dinner := v)
      case Snack => this.(snack := v)
    }
  }

  /** The running `totals` and `mealTotals`. */
  datatype Acc = Acc(daily: Vector, byMeal: ByMeal)

  /** What the function returns: `{ daily, byMeal }`, rounded. */
  datatype NutritionTotals = NutritionTotals(daily: Vector, byMeal: ByMeal)

  const Start: Acc :=
    Acc(Zero(AnalysisFields), ByMeal(Zero(AnalysisFields), Zero(AnalysisFields), Zero(AnalysisFields), Zero(AnalysisFields)))

  /** `entry.quantity / (entry.servingSize || 1)`: a missing or zero serving size counts as 1. */
  function EntryMultiplier(e: FoodLogs.Entry): (k: real)
    ensures (e.servingSize.None? || e.servingSize.value == 0.0) ==> k == e.quantity
  {
    e.quantity / (if e.servingSize.Some? && e.servingSize.value != 0.0 then e.servingSize.value else 1.0)
  }

  /** The fallback divides by the catalogue's serving size unguarded; the model reads only catalogues
      in which it is non-zero. */
  predicate CatalogueReadable(cat: map<string, Foods.Food>)
  {
    forall id :: id in cat ==> cat[id].servingSize != 0.0
  }

  /** The nutrients an entry is counted with and their multiplier: the entry's own `nutrients`, else
      the catalogue record `getFoodById(entry.foodId)`. `None` when that lookup throws. */
  function Source(e: FoodLogs.Entry, cat: map<string, Foods.Food>): Option<(Vector, real)>
    requires CatalogueReadable(cat)
  {
    if e.nutrients.Some? then Some((e.nutrients.value, EntryMultiplier(e)))
    else if Foods.FoodCatalogue.CheckId(Js.Str(e.foodId)).Ok? && e.foodId in cat then
      Some((cat[e.foodId].nutrients, e.quantity / cat[e.foodId].servingSize))
    else None
  }

  /** `v[n] += x` for a field `v` has. */
  function AddTo(v: Vector, n: Nutrient, x: real): (r: Vector)
    ensures r.Keys == v.Keys
    ensures forall m :: m in r ==> r[m] == (if m == n then v[m] + x else v[m])
  {
    if n in v then v[n := v[n] + x] else v
  }

  /** The calories of `v` scaled by `k`: what reaches the day when the bucket is missing. */
  function ScaledCalories(v: Vector, k: real): real
  {
    Amount(v, Calories) * k
  }

  /** One entry of the `try` block. Under a key that names no bucket, `mealTotals[mealType][nutrient]`
      throws on the first nutrient, calories, after the daily calories were already increased; the
      `catch` then drops the rest of the entry. */
  function StepEntry(acc: Acc, key: string, e: FoodLogs.Entry, cat: map<string, Foods.Food>): Acc
    requires CatalogueReadable(cat)
  {
    var src := Source(e, cat);
    if src.None? then acc
    else
      var b := BucketOf(key);
      if b.Some? then
        Acc(AddScaled(acc.daily, src.value.0, src.value.1),
            acc.byMeal.With(b.value, AddScaled(acc.byMeal.Get(b.value), src.value.0, src.value.1)))
      else Acc(AddTo(acc.daily, Calories, ScaledCalories(src.value.0, src.value.1)), acc.byMeal)
  }

  function FoldEntries(acc: Acc, key: string, es: seq<FoodLogs.Entry>, cat: map<string, Foods.Food>): Acc
    requires CatalogueReadable(cat)
  {
    if es == [] then acc else StepEntry(FoldEntries(acc, key, es[..|es| - 1], cat), key, es[|es| - 1], cat)
  }

  /** The two nested loops; a value that is not an array is skipped. */
  function FoldMeals(acc: Acc, meals: MealsObject, cat: map<string, Foods.Food>): Acc
    requires CatalogueReadable(cat)
  {
    if meals == [] then acc
    else
      var prev := FoldMeals(acc, meals[..|meals| - 1], cat);
      var last := meals[|meals| - 1];
      if last.1.Entries? then FoldEntries(prev, last.0, last.1.es, cat) else prev
  }

  function RoundMeals(bm: ByMeal): ByMeal
  {
    ByMeal(RoundAll(bm.breakfast), RoundAll(bm.lunch), RoundAll(bm.dinner), RoundAll(bm.snack))
  }

  /** The totals of a day's `meals` object: the two loops, then every value rounded to one decimal. */
  function DailyNutrition(meals: MealsObject, cat: map<string, Foods.Food>): NutritionTotals
    requires CatalogueReadable(cat)
  {
    var acc := FoldMeals(Start, meals, cat);
    NutritionTotals(RoundAll(acc.daily), RoundMeals(acc.byMeal))
  }

  /** The body of the `try` block for one entry. */
  method AddEntry(daily: Vector, byMeal: ByMeal, key: string, e: FoodLogs.Entry, cat: map<string, Foods.Food>)
    returns (daily': Vector, byMeal': ByMeal)
    requires CatalogueReadable(cat)
    ensures Acc(daily', byMeal') == StepEntry(Acc(daily, byMeal), key, e, cat)
  {
    var v: Vector;
    var k: real;
    if e.nutrients.Some? {
      v, k := e.nutrients.value, EntryMultiplier(e);
    } else {
      var id := Foods.FoodCatalogue.CheckId(Js.Str(e.foodId));
      if id.Err? || e.foodId !in cat {
        return daily, byMeal;
      }
      v, k := cat[e.foodId].nutrients, e.quantity / cat[e.foodId].servingSize;
    }
    var b := BucketOf(key);
    if b.None? {
      return AddTo(daily, Calories, ScaledCalories(v, k)), byMeal;
    }
    daily' := AddScaled(daily, v, k);
    byMeal' := byMeal.With(b.value, AddScaled(byMeal.Get(b.value), v, k));
  }

  /** `calculateDailyNutritionTotals(dailyLog)`, for the log's `meals` object. */
  method CalculateDailyNutritionTotals(meals: MealsObject, cat: map<string, Foods.Food>) returns (t: NutritionTotals)
    requires CatalogueReadable(cat)
    ensures t == DailyNutrition(meals, cat)
  {
    var daily := Start.daily;
    var byMeal := Start.byMeal;
    var i := 0;
    while i < |meals|
      invariant 0 <= i <= |meals|
      invariant Acc(daily, byMeal) == FoldMeals(Start, meals[..i], cat)
    {
      assert meals[..i + 1][..i] == meals[..i];
      var key := meals[i].0;
      if meals[i].1.Entries? {
        var es := meals[i].1.es;
        ghost var before := Acc(daily, byMeal);
        var j := 0;
        while j < |es|
          invariant 0 <= j <= |es|
          invariant Acc(daily, byMeal) == FoldEntries(before, key, es[..j], cat)
        {
          assert es[..j + 1][..j] == es[..j];
          daily, byMeal := AddEntry(daily, byMeal, key, es[j], cat);
          j := j + 1;
        }
        assert es[..j] == es;
      }
      i := i + 1;
    }
    assert meals[..i] == meals;
    t := NutritionTotals(RoundAll(daily), RoundMeals(byMeal));
  }

  // ---------------------------------------------------------------- day = sum of meals

  /** Calories an entry adds to the day without reaching a bucket. */
  function StrayOf(key: string, e: FoodLogs.Entry, cat: map<string, Foods.Food>): real
    requires CatalogueReadable(cat)
  {
    var src := Source(e, cat);
    if src.Some? && BucketOf(key).None? then ScaledCalories(src.value.0, src.value.1) else 0.0
  }

  function StrayEntries(key: string, es: seq<FoodLogs.Entry>, cat: map<string, Foods.Food>): real
    requires CatalogueReadable(cat)
  {
    if es == [] then 0.0 else StrayEntries(key, es[..|es| - 1], cat) + StrayOf(key, es[|es| - 1], cat)
  }

  /** The calories of every entry filed under a key that names no bucket. */
  function StrayCalories(meals: MealsObject, cat: map<string, Foods.Food>): real
    requires CatalogueReadable(cat)
  {
    if meals == [] then 0.0
    else
      var last := meals[|meals| - 1];
      StrayCalories(meals[..|meals| - 1], cat) + (if last.1.Entries? then StrayEntries(last.0, last.1.es, cat) else 0.0)
  }

  function SumBuckets(bm: ByMeal, n: Nutrient): real
    requires n in bm.breakfast && n in bm.lunch && n in bm.dinner && n in bm.snack
  {
    bm.breakfast[n] + bm.lunch[n] + bm.dinner[n] + bm.snack[n]
  }

  /** Every daily field is the sum of the four bucket fields, plus the stray calories. */
  predicate Balanced(acc: Acc, stray: real)
  {
    && acc.byMeal.breakfast.Keys == acc.daily.Keys && acc.byMeal.lunch.Keys == acc.daily.Keys
    && acc.byMeal.dinner.Keys == acc.daily.Keys && acc.byMeal.snack.Keys == acc.daily.Keys
    && forall n :: n in acc.daily ==>
         acc.daily[n] == SumBuckets(acc.byMeal, n) + (if n == Calories then stray else 0.0)
  }

  lemma StartBalanced()
    ensures Balanced(Start, 0.0)
  {
  }

  /** Adding a scaled vector to the day and to one bucket keeps the balance. */
  lemma BucketStepBalanced(acc: Acc, stray: real, b: Bucket, v: Vector, k: real)
    requires Balanced(acc, stray)
    ensures Balanced(Acc(AddScaled(acc.daily, v, k), acc.byMeal.With(b, AddScaled(acc.byMeal.Get(b), v, k))), stray)
  {
    var bm := acc.byMeal;
    var d' := AddScaled(acc.daily, v, k);
    var bm' := bm.With(b, AddScaled(bm.Get(b), v, k));
    forall n | n in d'
      ensures d'[n] == SumBuckets(bm', n) + (if n == Calories then stray else 0.0)
    {
      BucketFieldStep(bm, b, v, k, n);
    }
  }

  /** One field of the step: the bucket sum grows by exactly the added amount. */
  lemma BucketFieldStep(bm: ByMeal, b: Bucket, v: Vector, k: real, n: Nutrient)
    requires n in bm.breakfast && n in bm.lunch && n in bm.dinner && n in bm.snack
    ensures var bm' := bm.With(b, AddScaled(bm.Get(b), v, k));
      && n in bm'.breakfast && n in bm'.lunch && n in bm'.dinner && n in bm'.snack
      && SumBuckets(bm', n) == SumBuckets(bm, n) + Amount(v, n) * k
  {
    match b
    case Breakfast =>
    case Lunch =>
    case Dinner =>
    case Snack =>
  }

  /** Adding calories to the day alone moves them to the stray part. */
  lemma StrayStepBalanced(acc: Acc, stray: real, x: real)
    requires Balanced(acc, stray)
    ensures Balanced(Acc(AddTo(acc.daily, Calories, x), acc.byMeal), stray + x)
  {
  }

  lemma StepBalanced(acc: Acc, stray: real, key: string, e: FoodLogs.Entry, cat: map<string, Foods.Food>)
    requires CatalogueReadable(cat) && Balanced(acc, stray)
    ensures Balanced(StepEntry(acc, key, e, cat), stray + StrayOf(key, e, cat))
  {
    var src := Source(e, cat);
    if src.Some? {
      if BucketOf(key).Some? {
        BucketStepBalanced(acc, stray, BucketOf(key).value, src.value.0, src.value.1);
      } else {
        StrayStepBalanced(acc, stray, ScaledCalories(src.value.0, src.value.1));
      }
    }
  }

  lemma {:induction false} FoldEntriesBalanced(acc: Acc, stray: real, key: string, es: seq<FoodLogs.Entry>,
                                                cat: map<string, Foods.Food>)
    requires CatalogueReadable(cat) && Balanced(acc, stray)
    ensures Balanced(FoldEntries(acc, key, es, cat), stray + StrayEntries(key, es, cat))
  {
    if es != [] {
      FoldEntriesBalanced(acc, stray, key, es[..|es| - 1], cat);
      StepBalanced(FoldEntries(acc, key, es[..|es| - 1], cat), stray + StrayEntries(key, es[..|es| - 1], cat),
                   key, es[|es| - 1], cat);
    }
  }

  /** Before rounding, each daily field equals the sum of the four meal buckets, except that the
      daily calories also count the stray calories of entries under keys that name no bucket. */
  lemma {:induction false} DailyIsSumOfMeals(meals: MealsObject, cat: map<string, Foods.Food>)
    requires CatalogueReadable(cat)
    ensures Balanced(FoldMeals(Start, meals, cat), StrayCalories(meals, cat))
  {
    if meals == [] {
      StartBalanced();
    } else {
      DailyIsSumOfMeals(meals[..|meals| - 1], cat);
      var last := meals[|meals| - 1];
      if last.1.Entries? {
        FoldEntriesBalanced(FoldMeals(Start, meals[..|meals| - 1], cat), StrayCalories(meals[..|meals| - 1], cat),
                            last.0, last.1.es, cat);
      }
    }
  }

  // ---------------------------------------------------------------- the store's meal keys

  /** The `meals` object as data/foodLogs.js stores it, keyed breakfast, lunch, dinner, snacks. */
  function StoreMeals(m: FoodLogs.Meals): MealsObject
  {
    [("breakfast", Entries(m.breakfast)), ("lunch", Entries(m.lunch)),
     ("dinner", Entries(m.dinner)), ("snacks", Entries(m.snacks))]
  }

  /** The same meals under the bucket names the analysis expects: "snacks" read as "snack". */
  function CorrectedMeals(m: FoodLogs.Meals): MealsObject
  {
    [("breakfast", Entries(m.breakfast)), ("lunch", Entries(m.lunch)),
     ("dinner", Entries(m.dinner)), ("snack", Entries(m.snacks))]
  }

  /** Entries under a bucket key never count as stray. */
  lemma {:induction false} BucketKeyNoStray(key: string, es: seq<FoodLogs.Entry>, cat: map<string, Foods.Food>)
    requires CatalogueReadable(cat) && BucketOf(key).Some?
    ensures StrayEntries(key, es, cat) == 0.0
  {
    if es != [] {
      BucketKeyNoStray(key, es[..|es| - 1], cat);
    }
  }

  /** With the corrected keys the day is exactly the sum of its four meals. */
  lemma CorrectedHasNoStray(m: FoodLogs.Meals, cat: map<string, Foods.Food>)
    requires CatalogueReadable(cat)
    ensures StrayCalories(CorrectedMeals(m), cat) == 0.0
    ensures Balanced(FoldMeals(Start, CorrectedMeals(m), cat), 0.0)
  {
    var ms := CorrectedMeals(m);
    BucketKeyNoStray("breakfast", m.breakfast, cat);
    BucketKeyNoStray("lunch", m.lunch, cat);
    BucketKeyNoStray("dinner", m.dinner, cat);
    BucketKeyNoStray("snack", m.snacks, cat);
    assert ms[..1][..0] == [];
    assert StrayCalories(ms[..1], cat) == 0.0;
    assert ms[..2][..1] == ms[..1];
    assert StrayCalories(ms[..2], cat) == 0.0;
    assert ms[..3][..2] == ms[..2];
    assert StrayCalories(ms[..3], cat) == 0.0;
    assert ms[..3] == ms[..|ms| - 1];
    DailyIsSumOfMeals(ms, cat);
  }

  /** The fold over a four-key meals object is the fold over each key's entries in turn. */
  lemma FoldFourMeals(acc: Acc, ms: MealsObject, cat: map<string, Foods.Food>)
    requires CatalogueReadable(cat)
    requires |ms| == 4 && ms[0].1.Entries? && ms[1].1.Entries? && ms[2].1.Entries? && ms[3].1.Entries?
    ensures FoldMeals(acc, ms, cat)
         == FoldEntries(FoldEntries(FoldEntries(FoldEntries(acc, ms[0].0, ms[0].1.es, cat),
                                                ms[1].0, ms[1].1.es, cat),
                                    ms[2].0, ms[2].1.es, cat),
                        ms[3].0, ms[3].1.es, cat)
  {
    assert ms[..1][..0] == [];
    var a1 := FoldEntries(acc, ms[0].0, ms[0].1.es, cat);
    assert FoldMeals(acc, ms[..1], cat) == a1;
    assert ms[..2][..1] == ms[..1];
    var a2 := FoldEntries(a1, ms[1].0, ms[1].1.es, cat);
    assert FoldMeals(acc, ms[..2], cat) == a2;
    assert ms[..3][..2] == ms[..2];
    assert FoldMeals(acc, ms[..3], cat) == FoldEntries(a2, ms[2].0, ms[2].1.es, cat);
    assert ms[..3] == ms[..|ms| - 1];
  }

  /** A snack of 100 kcal and 10 g of protein, counted from the entry's own nutrients. */
  function ProteinSnack(): FoodLogs.Entry
  {
    FoodLogs.Entry("e", "f", None, 1.0, Some(map[Calories := 100.0, Protein := 10.0]), None)
  }

  /** As written, a store log's snacks reach the daily calories and nothing else: a day whose only
      entry is `ProteinSnack` has 100 kcal and 0 g of protein. */
  lemma StoreSnacksLoseProtein()
    ensures var t := FoldMeals(Start, StoreMeals(FoodLogs.Meals([], [], [], [ProteinSnack()])), map[]);
      Calories in t.daily && Protein in t.daily && t.daily[Calories] == 100.0 && t.daily[Protein] == 0.0
  {
    var e := ProteinSnack();
    var ms := StoreMeals(FoodLogs.Meals([], [], [], [e]));
    assert Calories in AnalysisFields && Protein in AnalysisFields;
    FoldFourMeals(Start, ms, map[]);
    assert [e][..0] == [];
    assert FoldEntries(Start, "snacks", [e], map[]) == StepEntry(Start, "snacks", e, map[]);
    assert BucketOf("snacks").None?;
  }

  /** With the corrected keys the same snack's protein is counted, in the day and in its bucket. */
  lemma CorrectedSnacksKeepProtein()
    ensures var t := FoldMeals(Start, CorrectedMeals(FoodLogs.Meals([], [], [], [ProteinSnack()])), map[]);
      Calories in t.daily && Protein in t.daily && Protein in t.byMeal.snack
      && t.daily[Calories] == 100.0 && t.daily[Protein] == 10.0 && t.byMeal.snack[Protein] == 10.0
  {
    var e := ProteinSnack();
    var ms := CorrectedMeals(FoodLogs.Meals([], [], [], [e]));
    assert Calories in AnalysisFields && Protein in AnalysisFields;
    FoldFourMeals(Start, ms, map[]);
    assert [e][..0] == [];
    assert FoldEntries(Start, "snack", [e], map[]) == StepEntry(Start, "snack", e, map[]);
  }
}
