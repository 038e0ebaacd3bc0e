/** The food catalogue of data/foods.js: validation and the stored record of `addFood`, and the
    lookup, update and removal of a record by id. The collection is a map from id to record. */
module Foods {
  import opened Wrappers
  import Js
  import Text
  import Helpers
  import opened Nutrients

  /** A catalogue record. `brand`, `category` and `sourceId` are `null` when absent. */
  datatype Food = Food(
    name: string,
    brand: Option<string>,
    category: Option<string>,
    nutrients: Vector,
    servingSize: real,
    servingUnit: string,
    source: string,
    sourceId: Option<string>)

  /** The fields `addFood` reads. `nutrients` is `None` when it is falsy or not an object. */
  datatype FoodInput = FoodInput(
    name: Js.Value,
    brand: Js.Value,
    category: Js.Value,
    nutrients: Option<Vector>,
    servingSize: Js.Value,
    servingUnit: Js.Value,
    source: Js.Value,
    sourceId: Js.Value)

  datatype FoodError =
    | Check(e: Helpers.CheckError)
    | NutrientsNotObject
    | ServingSizeNotPositive
    | FoodIdRequired
    | FoodNotFound
    | CouldNotUpdate
    | CouldNotDelete
  {
    function Message(): string
    {
      match this
      case Check(e) => e.Message()
      case NutrientsNotObject => "Nutrients must be an object"
      case ServingSizeNotPositive => "Serving size must be a positive number"
      case FoodIdRequired => "Food ID is required"
      case FoodNotFound => "Food not found"
      case CouldNotUpdate => "Could not update food"
      case CouldNotDelete => "Could not delete food"
    }
  }

  /** A field that is checked only when it is truthy: `if (v) checkString(v, name)`. */
  function OptionalText(v: Js.Value, name: string): (r: Result<Option<string>, Helpers.CheckError>)
    ensures !Js.Truthy(v) ==> r == Ok(None)
    ensures Js.Truthy(v) ==> r.Ok? == Helpers.CheckString(v, name).Ok?
    ensures Js.Truthy(v) && r.Ok? ==> r.value == Some(Text.Trim(v.s))
    ensures Js.Truthy(v) && r.Err? ==> r.error == Helpers.CheckString(v, name).error
  {
    if !Js.Truthy(v) then Ok(None)
    else
      match Helpers.CheckString(v, name)
      case Ok(t) => Ok(Some(t))
      case Err(e) => Err(e)
  }

  /** The stored vector: the fourteen catalogue fields, each `nutrients.x || 0`. */
  function CatalogueVector(input: Vector): (v: Vector)
    ensures v.Keys == set n | n in CatalogueFields
    ensures Potassium !in v
    ensures forall n :: n in v ==> v[n] == Amount(input, n)
  {
    map n | n in CatalogueFields :: Amount(input, n)
  }

  /** The checks of `addFood` in the source's order, then the `newFood` record. */
  function ValidateFood(d: FoodInput): (r: Result<Food, FoodError>)
    ensures r.Ok? <==>
      && Helpers.CheckString(d.name, "Food name").Ok?
      && OptionalText(d.brand, "Brand").Ok?
      && OptionalText(d.category, "Category").Ok?
      && OptionalText(d.servingUnit, "Serving unit").Ok?
      && OptionalText(d.source, "Source").Ok?
      && OptionalText(d.sourceId, "Source ID").Ok?
      && d.nutrients.Some?
      && d.servingSize.Num? && d.servingSize.n > 0.0
    ensures Helpers.CheckString(d.name, "Food name").Err? ==>
      r == Err(Check(Helpers.CheckString(d.name, "Food name").error))
    ensures r.Ok? ==> var f := r.value;
      && f.name == Text.Trim(d.name.s) && f.name != ""
      && f.brand == OptionalText(d.brand, "Brand").value
      && f.category == OptionalText(d.category, "Category").value
      && f.nutrients == CatalogueVector(d.nutrients.value)
      && f.servingSize == d.servingSize.n > 0.0
      && f.servingUnit == (if Js.Truthy(d.servingUnit) then Text.Trim(d.servingUnit.s) else "g")
      && f.source == (if Js.Truthy(d.source) then d.source.s else "manual")
      && f.sourceId == (if Js.Truthy(d.sourceId) then Some(d.sourceId.s) else None)
  {
    match Helpers.CheckString(d.name, "Food name")
    case Err(e) => Err(Check(e))
    case Ok(name) =>
      match OptionalText(d.brand, "Brand")
      case Err(e) => Err(Check(e))
      case Ok(brand) =>
        match OptionalText(d.category, "Category")
        case Err(e) => Err(Check(e))
        case Ok(category) =>
          match OptionalText(d.servingUnit, "Serving unit")
          case Err(e) => Err(Check(e))
          case Ok(unit) =>
            match OptionalText(d.source, "Source")
            case Err(e) => Err(Check(e))
            case Ok(_) =>
              match OptionalText(d.sourceId, "Source ID")
              case Err(e) => Err(Check(e))
              case Ok(_) =>
                if d.nutrients.None? then Err(NutrientsNotObject)
                else if !(d.servingSize.Num? && d.servingSize.n > 0.0) then Err(ServingSizeNotPositive)
                else
                  Ok(Food(
                    name,
                    brand,
                    category,
                    CatalogueVector(d.nutrients.value),
                    d.servingSize.n,
                    if unit.Some? then unit.value else "g",
                    if Js.Truthy(d.source) then d.source.s else "manual",
                    if Js.Truthy(d.sourceId) then Some(d.sourceId.s) else None))
  }

  /** A potassium amount given to `addFood` is not kept: the stored record reads it as 0. */
  lemma PotassiumDropped(d: FoodInput)
    requires ValidateFood(d).Ok?
    ensures Amount(ValidateFood(d).value.nutrients, Potassium) == 0.0
  {
  }

  /** The top-level fields `updateFood` may overwrite; `None` leaves the field as it is. */
  datatype FoodPatch = FoodPatch(
    name: Option<string>,
    brand: Option<Option<string>>,
    category: Option<Option<string>>,
    nutrients: Option<Vector>,
    servingSize: Option<real>,
    servingUnit: Option<string>,
    source: Option<string>,
    sourceId: Option<Option<string>>)

  const EmptyPatch := FoodPatch(None, None, None, None, None, None, None, None)

  function Pick<T>(p: Option<T>, old_: T): T
  {
    if p.Some? then p.value else old_
  }

  /** `{ ...food, ...updateData }`: supplied fields replace the stored ones whole, with no checks. */
  function ApplyPatch(f: Food, p: FoodPatch): (r: Food)
    ensures r.name == (if p.name.Some? then p.name.value else f.name)
    ensures r.brand == (if p.brand.Some? then p.brand.value else f.brand)
    ensures r.category == (if p.category.Some? then p.category.value else f.category)
    ensures r.nutrients == (if p.nutrients.Some? then p.nutrients.value else f.nutrients)
    ensures r.servingSize == (if p.servingSize.Some? then p.servingSize.value else f.servingSize)
    ensures r.servingUnit == (if p.servingUnit.Some? then p.servingUnit.value else f.servingUnit)
    ensures r.source == (if p.source.Some? then p.source.value else f.source)
    ensures r.sourceId == (if p.sourceId.Some? then p.sourceId.value else f.sourceId)
  {
    Food(
      Pick(p.name, f.name),
      Pick(p.brand, f.brand),
      Pick(p.category, f.category),
      Pick(p.nutrients, f.nutrients),
      Pick(p.servingSize, f.servingSize),
      Pick(p.servingUnit, f.servingUnit),
      Pick(p.source, f.source),
      Pick(p.sourceId, f.sourceId))
  }

  /** Two updates in a row are one update whose later fields win. */
  function Then(p: FoodPatch, q: FoodPatch): FoodPatch
  {
    FoodPatch(
      if q.name.Some? then q.name else p.name,
      if q.brand.Some? then q.brand else p.brand,
      if q.category.Some? then q.category else p.category,
      if q.nutrients.Some? then q.nutrients else p.nutrients,
      if q.servingSize.Some? then q.servingSize else p.servingSize,
      if q.servingUnit.Some? then q.servingUnit else p.servingUnit,
      if q.source.Some? then q.source else p.source,
      if q.sourceId.Some? then q.sourceId else p.sourceId)
  }

  lemma PatchesCompose(f: Food, p: FoodPatch, q: FoodPatch)
    ensures ApplyPatch(ApplyPatch(f, p), q) == ApplyPatch(f, Then(p, q))
    ensures ApplyPatch(f, EmptyPatch) == f
  {
  }

  /** Every stored serving size is positive, as `addFood` demands; the analysis divides by it. */
  predicate ServingSizesPositive(foods: map<string, Food>)
  {
    forall id :: id in foods ==> foods[id].servingSize > 0.0
  }

  class FoodCatalogue {
    /** The `foods` collection, by id. */
    var foods: map<string, Food>

    constructor ()
      ensures foods == map[]
    {
      foods := map[];
    }

    /** `addFood`: the record is stored under the fresh id the database assigns. */
    method AddFood(id: string, d: FoodInput) returns (r: Result<Food, FoodError>)
      requires id !in foods
      modifies this
      ensures r == ValidateFood(d)
      ensures r.Ok? ==> foods == old(foods)[id := r.value]
      ensures r.Err? ==> foods == old(foods)
      ensures ServingSizesPositive(old(foods)) ==> ServingSizesPositive(foods)
    {
      r := ValidateFood(d);
      if r.Ok? {
        foods := foods[id := r.value];
      }
    }

    /** Shared guard of the by-id operations: `if (!foodId) throw ...; checkString(foodId, ...)`.
        The id is then used as given, untrimmed. */
    static function CheckId(foodId: Js.Value): (r: Result<string, FoodError>)
      ensures r.Ok? <==> Js.Truthy(foodId) && Helpers.CheckString(foodId, "Food ID").Ok?
      ensures !Js.Truthy(foodId) ==> r == Err(FoodIdRequired)
      ensures r.Ok? ==> r.value == foodId.s
    {
      if !Js.Truthy(foodId) then Err(FoodIdRequired)
      else
        match Helpers.CheckString(foodId, "Food ID")
        case Err(e) => Err(Check(e))
        case Ok(_) => Ok(foodId.s)
    }

    /** `getFoodById` */
    method GetFoodById(foodId: Js.Value) returns (r: Result<Food, FoodError>)
      ensures CheckId(foodId).Err? ==> r == Err(CheckId(foodId).error)
      ensures CheckId(foodId).Ok? && foodId.s !in foods ==> r == Err(FoodNotFound)
      ensures r.Ok? <==> CheckId(foodId).Ok? && foodId.s in foods
      ensures r.Ok? ==> r.value == foods[foodId.s]
    {
      var id := CheckId(foodId);
      if id.Err? {
        return Err(id.error);
      }
      if id.value !in foods {
        return Err(FoodNotFound);
      }
      return Ok(foods[id.value]);
    }

    /** `updateFood`: an unknown id modifies nothing and reports "Could not update food". */
    method UpdateFood(foodId: Js.Value, p: FoodPatch) returns (r: Result<Food, FoodError>)
      modifies this
      ensures CheckId(foodId).Err? ==> r == Err(CheckId(foodId).error)
      ensures CheckId(foodId).Ok? && foodId.s !in old(foods) ==> r == Err(CouldNotUpdate)
      ensures r.Ok? <==> CheckId(foodId).Ok? && foodId.s in old(foods)
      ensures r.Ok? ==> r.value == ApplyPatch(old(foods)[foodId.s], p) && foods == old(foods)[foodId.s := r.value]
      ensures r.Err? ==> foods == old(foods)
    {
      var id := CheckId(foodId);
      if id.Err? {
        return Err(id.error);
      }
      if id.value !in foods {
        return Err(CouldNotUpdate);
      }
      var updated := ApplyPatch(foods[id.value], p);
      foods := foods[id.value := updated];
      return Ok(updated);
    }

    /** `deleteFood` */
    method DeleteFood(foodId: Js.Value) returns (r: Result<bool, FoodError>)
      modifies this
      ensures CheckId(foodId).Err? ==> r == Err(CheckId(foodId).error)
      ensures CheckId(foodId).Ok? && foodId.s !in old(foods) ==> r == Err(CouldNotDelete)
      ensures r.Ok? <==> CheckId(foodId).Ok? && foodId.s in old(foods)
      ensures r.Ok? ==> r.value && foods == old(foods) - {foodId.s}
      ensures r.Err? ==> foods == old(foods)
    {
      var id := CheckId(foodId);
      if id.Err? {
        return Err(id.error);
      }
      if id.value !in foods {
        return Err(CouldNotDelete);
      }
      foods := foods - {id.value};
      return Ok(true);
    }
  }

  /** Because `updateFood` does not re-check its data, it can store a serving size of zero, which
      `addFood` would have refused. */
  lemma UpdateCanBreakServingSizes(f: Food)
    requires f.servingSize > 0.0
    ensures ServingSizesPositive(map["a" := f])
    ensures !ServingSizesPositive(map["a" := ApplyPatch(f, EmptyPatch.(servingSize := Some(0.0)))])
  {
    assert "a" in map["a" := ApplyPatch(f, EmptyPatch.(servingSize := Some(0.0)))];
  }
}
