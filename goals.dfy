/** The nutritional-goals store of data/nutritionalGoals.js: at most one record per user, whose macro
    calories are derived from grams at 4, 4 and 9 kcal per gram. */
module Goals {
  import opened Wrappers
  import Js
  import Helpers
  import Numeric
  import Calculation

  /** A macro goal object `{ grams, calories }`; after an update these are whatever the caller sent. */
  datatype MacroGoal = MacroGoal(grams: Js.Value, calories: Js.Value)

  /** `macronutrients`; an update may supply an object that lacks some of the three. */
  datatype MacroSet = MacroSet(protein: Option<MacroGoal>, carbohydrates: Option<MacroGoal>, fat: Option<MacroGoal>)

  datatype GoalsRecord = GoalsRecord(
    userId: string,
    calories: real,
    macronutrients: MacroSet,
    activityLevel: Js.Value,
    goalType: Js.Value,
    bmr: Js.Value,
    tdee: Js.Value,
    bmi: Js.Value)

  /** The fields `createNutritionalGoals` reads. */
  datatype GoalsInput = GoalsInput(
    calories: Js.Value,
    protein: Js.Value,
    carbohydrates: Js.Value,
    fat: Js.Value,
    activityLevel: Js.Value,
    goalType: Js.Value,
    bmr: Js.Value,
    tdee: Js.Value,
    bmi: Js.Value)

  /** The top-level fields `updateNutritionalGoals` may overwrite; `None` keeps the stored field.
      `$set` takes the caller's object as it is, so it may carry a new `userId` too. */
  datatype GoalsPatch = GoalsPatch(
    userId: Option<string>,
    calories: Option<real>,
    macronutrients: Option<MacroSet>,
    activityLevel: Option<Js.Value>,
    goalType: Option<Js.Value>,
    bmr: Option<Js.Value>,
    tdee: Option<Js.Value>,
    bmi: Option<Js.Value>)

  datatype GoalsError =
    | UserIdRequired
    | Check(e: Helpers.CheckError)
    | CaloriesNotPositive
    | ProteinInvalid
    | CarbohydratesInvalid
    | FatInvalid
    | GoalsExist
    | GoalsNotFound
  {
    function Message(): string
    {
      match this
      case UserIdRequired => "User ID is required"
      case Check(e) => e.Message()
      case CaloriesNotPositive => "Calories must be a positive number"
      case ProteinInvalid => "Protein must be a non-negative number"
      case CarbohydratesInvalid => "Carbohydrates must be a non-negative number"
      case FatInvalid => "Fat must be a non-negative number"
      case GoalsExist => "Nutritional goals already exist for this user. Use updateNutritionalGoals instead."
      case GoalsNotFound => "Nutritional goals not found. Use createNutritionalGoals instead."
    }
  }

  /** `!v || typeof v !== "number" || v < 0` fails exactly when `v` is not a positive number: zero is
      falsy, so the "non-negative" checks refuse it too. */
  predicate PositiveNumber(v: Js.Value)
  {
    v.Num? && v.n > 0.0
  }

  /** `Math.round(grams * k)` */
  function CaloriesOf(grams: real, k: real): real
  {
    Numeric.Round(grams * k) as real
  }

  /** The macro object `create` builds: grams as given, calories `Math.round(grams * k)`. */
  function Derived(grams: real, k: real): (m: MacroGoal)
    ensures m.grams == Js.Num(grams)
    ensures m.calories == Js.Num(CaloriesOf(grams, k))
  {
    MacroGoal(Js.Num(grams), Js.Num(CaloriesOf(grams, k)))
  }

  /** A macro whose grams is a number carries the calories derived from it. */
  predicate Consistent(m: Option<MacroGoal>, k: real)
  {
    m.Some? && m.value.grams.Num? ==> m.value.calories == Js.Num(CaloriesOf(m.value.grams.n, k))
  }

  predicate MacroCaloriesDerived(ms: MacroSet)
  {
    Consistent(ms.protein, 4.0) && Consistent(ms.carbohydrates, 4.0) && Consistent(ms.fat, 9.0)
  }

  /** The guard every operation starts with: a truthy, non-blank string user id, used untrimmed. */
  function CheckUser(userId: Js.Value): (r: Result<string, GoalsError>)
    ensures r.Ok? <==> Js.Truthy(userId) && Helpers.CheckString(userId, "User ID").Ok?
    ensures !Js.Truthy(userId) ==> r == Err(UserIdRequired)
    ensures r.Ok? ==> r.value == userId.s
  {
    if !Js.Truthy(userId) then Err(UserIdRequired)
    else
      match Helpers.CheckString(userId, "User ID")
      case Err(e) => Err(Check(e))
      case Ok(_) => Ok(userId.s)
  }

  /** The value checks of `createNutritionalGoals`, in the source's order. */
  function ValidateGoals(d: GoalsInput): (r: Option<GoalsError>)
    ensures r.None? <==>
      PositiveNumber(d.calories) && PositiveNumber(d.protein) && PositiveNumber(d.carbohydrates) && PositiveNumber(d.fat)
    ensures !PositiveNumber(d.calories) ==> r == Some(CaloriesNotPositive)
    ensures PositiveNumber(d.calories) && !PositiveNumber(d.protein) ==> r == Some(ProteinInvalid)
    ensures PositiveNumber(d.calories) && PositiveNumber(d.protein) && !PositiveNumber(d.carbohydrates) ==>
      r == Some(CarbohydratesInvalid)
    ensures PositiveNumber(d.calories) && PositiveNumber(d.protein) && PositiveNumber(d.carbohydrates)
            && !PositiveNumber(d.fat) ==>
      r == Some(FatInvalid)
  {
    if !PositiveNumber(d.calories) then Some(CaloriesNotPositive)
    else if !PositiveNumber(d.protein) then Some(ProteinInvalid)
    else if !PositiveNumber(d.carbohydrates) then Some(CarbohydratesInvalid)
    else if !PositiveNumber(d.fat) then Some(FatInvalid)
    else None
  }

  /** The `newGoals` record: optional fields that are falsy are stored as `null`. */
  function NewGoals(userId: string, d: GoalsInput): (g: GoalsRecord)
    requires ValidateGoals(d).None?
    ensures g.userId == userId && g.calories == d.calories.n
    ensures MacroCaloriesDerived(g.macronutrients)
    ensures g.macronutrients.protein == Some(Derived(d.protein.n, 4.0))
    ensures g.macronutrients.carbohydrates == Some(Derived(d.carbohydrates.n, 4.0))
    ensures g.macronutrients.fat == Some(Derived(d.fat.n, 9.0))
    ensures g.activityLevel == (if Js.Truthy(d.activityLevel) then d.activityLevel else Js.Null)
    ensures g.goalType == (if Js.Truthy(d.goalType) then d.goalType else Js.Null)
    ensures g.bmr == (if Js.Truthy(d.bmr) then d.bmr else Js.Null)
    ensures g.tdee == (if Js.Truthy(d.tdee) then d.tdee else Js.Null)
    ensures g.bmi == (if Js.Truthy(d.bmi) then d.bmi else Js.Null)
  {
    GoalsRecord(
      userId,
      d.calories.n,
      MacroSet(Some(Derived(d.protein.n, 4.0)), Some(Derived(d.carbohydrates.n, 4.0)), Some(Derived(d.fat.n, 9.0))),
      Js.Or(d.activityLevel, Js.Null),
      Js.Or(d.goalType, Js.Null),
      Js.Or(d.bmr, Js.Null),
      Js.Or(d.tdee, Js.Null),
      Js.Or(d.bmi, Js.Null))
  }

  /** `updateObj.macronutrients.x.calories = Math.round(grams * k)` when the new grams is a number. */
  function Recompute(m: Option<MacroGoal>, k: real): (r: Option<MacroGoal>)
    ensures Consistent(r, k)
    ensures r.Some? == m.Some?
    ensures r.Some? ==> r.value.grams == m.value.grams
    ensures m.Some? && !m.value.grams.Num? ==> r == m
  {
    if m.Some? && m.value.grams.Num? then
      Some(Derived(m.value.grams.n, k))
    else m
  }

  /** `{ ...existing, ...updateData }` with the macro calories recomputed: each supplied top-level
      field replaces the stored one, and a supplied `macronutrients` replaces the stored one whole. */
  function Merge(g: GoalsRecord, p: GoalsPatch): (r: GoalsRecord)
    ensures r.userId == (if p.userId.Some? then p.userId.value else g.userId)
    ensures r.calories == (if p.calories.Some? then p.calories.value else g.calories)
    ensures p.macronutrients.None? ==> r.macronutrients == g.macronutrients
    ensures p.macronutrients.Some? ==>
      var m := p.macronutrients.value;
      r.macronutrients == MacroSet(Recompute(m.protein, 4.0), Recompute(m.carbohydrates, 4.0), Recompute(m.fat, 9.0))
    ensures r.activityLevel == (if p.activityLevel.Some? then p.activityLevel.value else g.activityLevel)
    ensures r.goalType == (if p.goalType.Some? then p.goalType.value else g.goalType)
    ensures r.bmr == (if p.bmr.Some? then p.bmr.value else g.bmr)
    ensures r.tdee == (if p.tdee.Some? then p.tdee.value else g.tdee)
    ensures r.bmi == (if p.bmi.Some? then p.bmi.value else g.bmi)
    ensures MacroCaloriesDerived(g.macronutrients) ==> MacroCaloriesDerived(r.macronutrients)
  {
    var ms := if p.macronutrients.Some? then
        var m := p.macronutrients.value;
        MacroSet(Recompute(m.protein, 4.0), Recompute(m.carbohydrates, 4.0), Recompute(m.fat, 9.0))
      else g.macronutrients;
    GoalsRecord(
      if p.userId.Some? then p.userId.value else g.userId,
      if p.calories.Some? then p.calories.value else g.calories,
      ms,
      if p.activityLevel.Some? then p.activityLevel.value else g.activityLevel,
      if p.goalType.Some? then p.goalType.value else g.goalType,
      if p.bmr.Some? then p.bmr.value else g.bmr,
      if p.tdee.Some? then p.tdee.value else g.tdee,
      if p.bmi.Some? then p.bmi.value else g.bmi)
  }

  const NoChange: GoalsPatch := GoalsPatch(None, None, None, None, None, None, None, None)

  /** An update with no fields leaves a record as it is. */
  lemma MergeNothing(g: GoalsRecord)
    ensures Merge(g, NoChange) == g
  {
  }

  /** Sending the same update twice gives the record the first one gave. */
  lemma MergeIdempotent(g: GoalsRecord, p: GoalsPatch)
    ensures Merge(Merge(g, p), p) == Merge(g, p)
  {
    if p.macronutrients.Some? {
      var m := p.macronutrients.value;
      RecomputeIdempotent(m.protein, 4.0);
      RecomputeIdempotent(m.carbohydrates, 4.0);
      RecomputeIdempotent(m.fat, 9.0);
    }
  }

  lemma RecomputeIdempotent(m: Option<MacroGoal>, k: real)
    ensures Recompute(Recompute(m, k), k) == Recompute(m, k)
  {
  }

  /** Goals set up from the calculator's macro split (the goal-setup route) store macro calories
      within one kilocalorie of the calculator's own figures. */
  lemma {:induction false} SetupCaloriesAgree(total: real, d: Calculation.Distribution)
    requires Calculation.CalculateMacronutrients(total, d).Ok?
    ensures var m := Calculation.CalculateMacronutrients(total, d).value;
      && -1 <= Numeric.Round(m.protein.grams * 4.0) - m.protein.calories <= 1
      && -1 <= Numeric.Round(m.carbohydrates.grams * 4.0) - m.carbohydrates.calories <= 1
      && -1 <= Numeric.Round(m.fat.grams * 9.0) - m.fat.calories <= 1
  {
    Calculation.ShareCaloriesAgree(total, Calculation.Percent(d.protein, 25.0), 4.0);
    Calculation.ShareCaloriesAgree(total, Calculation.Percent(d.carbohydrates, 45.0), 4.0);
    Calculation.ShareCaloriesAgree(total, Calculation.Percent(d.fat, 30.0), 9.0);
  }

  /** `findOne({ userId })`: the position of the first record filed under the user, if any. */
  function FindFirst(records: seq<GoalsRecord>, u: string): Option<nat>
  {
    if records == [] then None
    else if records[0].userId == u then Some(0)
    else
      match FindFirst(records[1..], u)
      case None => None
      case Some(i) => Some(i + 1)
  }

  /** `FindFirst` finds the first record of the user, and finds none exactly when there is none. */
  lemma {:induction false} FindFirstIsFirst(records: seq<GoalsRecord>, u: string)
    ensures FindFirst(records, u).Some? ==>
      && FindFirst(records, u).value < |records|
      && records[FindFirst(records, u).value].userId == u
      && forall j :: 0 <= j < FindFirst(records, u).value ==> records[j].userId != u
    ensures FindFirst(records, u).None? <==> forall j :: 0 <= j < |records| ==> records[j].userId != u
  {
    if records != [] && records[0].userId != u {
      FindFirstIsFirst(records[1..], u);
      forall j | 0 < j < |records|
        ensures records[j].userId == records[1..][j - 1].userId
      {
      }
    }
  }

  /** What `getNutritionalGoalsByUserId` finds: the user's first record, or `null`. */
  function Lookup(records: seq<GoalsRecord>, u: string): Option<GoalsRecord>
  {
    match FindFirst(records, u)
    case None => None
    case Some(i) => if i < |records| then Some(records[i]) else None
  }

  /** No two records are filed under the same user. */
  predicate OnePerUser(records: seq<GoalsRecord>)
  {
    forall i, j :: 0 <= i < j < |records| ==> records[i].userId != records[j].userId
  }

  /** Replacing a user's first record by one with the same user id leaves it that user's first record,
      and keeps one record per user. */
  lemma {:induction false} ReplaceFirstKeepsOwner(records: seq<GoalsRecord>, u: string, g: GoalsRecord)
    requires FindFirst(records, u).Some? && g.userId == u
    ensures FindFirst(records, u).value < |records|
    ensures var i := FindFirst(records, u).value;
      && Lookup(records[i := g], u) == Some(g)
      && (OnePerUser(records) ==> OnePerUser(records[i := g]))
  {
    FindFirstIsFirst(records, u);
    var i := FindFirst(records, u).value;
    var rs := records[i := g];
    FindFirstIsFirst(rs, u);
    assert rs[i].userId == u;
    assert FindFirst(rs, u).value == i;
  }

  /** An update whose data names another user moves the record away: the update finds the record,
      and the lookup it returns with afterwards finds nothing. */
  lemma MovedGoalsVanish(g: GoalsRecord, p: GoalsPatch)
    requires p.userId.Some? && p.userId.value != g.userId
    ensures Lookup([g], g.userId) == Some(g)
    ensures Lookup([g][0 := Merge(g, p)], g.userId) == None
  {
    assert [g][0 := Merge(g, p)] == [Merge(g, p)];
  }

  /** Moving a record onto a user who has one leaves that user with two. */
  lemma MoveCanDuplicate(a: GoalsRecord, b: GoalsRecord, p: GoalsPatch)
    requires a.userId != b.userId && p.userId == Some(b.userId)
    ensures OnePerUser([a, b]) && !OnePerUser([a, b][0 := Merge(a, p)])
  {
    var rs := [a, b][0 := Merge(a, p)];
    assert rs[0].userId == rs[1].userId;
  }

  /** Every stored macro carries the calories derived from its grams. */
  predicate AllDerived(records: seq<GoalsRecord>)
  {
    forall i :: 0 <= i < |records| ==> MacroCaloriesDerived(records[i].macronutrients)
  }

  lemma DerivedAppend(records: seq<GoalsRecord>, g: GoalsRecord)
    requires AllDerived(records) && MacroCaloriesDerived(g.macronutrients)
    ensures AllDerived(records + [g])
  {
  }

  lemma DerivedReplace(records: seq<GoalsRecord>, i: nat, p: GoalsPatch)
    requires AllDerived(records) && i < |records|
    ensures AllDerived(records[i := Merge(records[i], p)])
  {
  }

  class GoalsStore {
    /** The `nutritionalGoals` collection, in insertion order. */
    var records: seq<GoalsRecord>

    ghost predicate Valid()
      reads this
    {
      AllDerived(records)
    }

    constructor ()
      ensures records == [] && Valid()
    {
      records := [];
    }

    /** `createNutritionalGoals`: the new record is added only when the user has none, so a store
        with one record per user keeps that property. */
    method CreateNutritionalGoals(userId: Js.Value, d: GoalsInput) returns (r: Result<GoalsRecord, GoalsError>)
      requires Valid()
      modifies this
      ensures Valid()
      ensures CheckUser(userId).Err? ==> r == Err(CheckUser(userId).error)
      ensures CheckUser(userId).Ok? && ValidateGoals(d).Some? ==> r == Err(ValidateGoals(d).value)
      ensures CheckUser(userId).Ok? && ValidateGoals(d).None? && FindFirst(old(records), userId.s).Some? ==>
        r == Err(GoalsExist)
      ensures r.Ok? <==>
        CheckUser(userId).Ok? && ValidateGoals(d).None? && FindFirst(old(records), userId.s).None?
      ensures r.Ok? ==> r.value == NewGoals(userId.s, d) && records == old(records) + [r.value]
      ensures r.Ok? ==> Lookup(records, userId.s) == Some(r.value)
      ensures r.Err? ==> records == old(records)
      ensures OnePerUser(old(records)) ==> OnePerUser(records)
    {
      var u := CheckUser(userId);
      if u.Err? {
        return Err(u.error);
      }
      var invalid := ValidateGoals(d);
      if invalid.Some? {
        return Err(invalid.value);
      }
      if FindFirst(records, u.value).Some? {
        return Err(GoalsExist);
      }
      var g := NewGoals(u.value, d);
      AppendNewUser(records, g);
      DerivedAppend(records, g);
      records := records + [g];
      return Ok(g);
    }

    /** `getNutritionalGoalsByUserId`: a user without goals is `null`, not an error. */
    method GetNutritionalGoalsByUserId(userId: Js.Value) returns (r: Result<Option<GoalsRecord>, GoalsError>)
      ensures CheckUser(userId).Err? ==> r == Err(CheckUser(userId).error)
      ensures CheckUser(userId).Ok? ==> r == Ok(Lookup(records, userId.s))
    {
      var u := CheckUser(userId);
      if u.Err? {
        return Err(u.error);
      }
      var i := FindFirst(records, u.value);
      if i.None? || i.value >= |records| {
        return Ok(None);
      }
      return Ok(Some(records[i.value]));
    }

    /** `updateNutritionalGoals`: the user's first record is merged with the update, and the record
        the user has afterwards is returned, `null` when the update filed it under another user.
        An update that names no user keeps the record where it was. */
    method UpdateNutritionalGoals(userId: Js.Value, p: GoalsPatch) returns (r: Result<Option<GoalsRecord>, GoalsError>)
      requires Valid()
      modifies this
      ensures Valid()
      ensures CheckUser(userId).Err? ==> r == Err(CheckUser(userId).error)
      ensures CheckUser(userId).Ok? && FindFirst(old(records), userId.s).None? ==> r == Err(GoalsNotFound)
      ensures r.Ok? <==> CheckUser(userId).Ok? && FindFirst(old(records), userId.s).Some?
      ensures r.Ok? ==>
        var i := FindFirst(old(records), userId.s).value;
        && i < |old(records)|
        && records == old(records)[i := Merge(old(records)[i], p)]
        && r.value == Lookup(records, userId.s)
      ensures r.Ok? && (p.userId.None? || p.userId == Some(userId.s)) ==>
        var i := FindFirst(old(records), userId.s).value;
        && r.value == Some(Merge(old(records)[i], p))
        && (OnePerUser(old(records)) ==> OnePerUser(records))
      ensures r.Err? ==> records == old(records)
    {
      var u := CheckUser(userId);
      if u.Err? {
        return Err(u.error);
      }
      var i := FindFirst(records, u.value);
      if i.None? {
        return Err(GoalsNotFound);
      }
      FindFirstIsFirst(records, u.value);
      var g := Merge(records[i.value], p);
      if p.userId.None? || p.userId == Some(u.value) {
        ReplaceFirstKeepsOwner(records, u.value, g);
      }
      DerivedReplace(records, i.value, p);
      records := records[i.value := g];
      r := GetNutritionalGoalsByUserId(userId);
    }
  }

  /** Appending a record for a user who has none keeps one record per user, and the lookup finds it. */
  lemma AppendNewUser(records: seq<GoalsRecord>, g: GoalsRecord)
    requires FindFirst(records, g.userId).None?
    ensures OnePerUser(records) ==> OnePerUser(records + [g])
    ensures Lookup(records + [g], g.userId) == Some(g)
  {
    FindFirstIsFirst(records, g.userId);
    var rs := records + [g];
    FindFirstIsFirst(rs, g.userId);
    assert rs[|records|].userId == g.userId;
    if FindFirst(rs, g.userId).Some? {
      assert FindFirst(rs, g.userId).value == |records|;
    }
  }
}
