/** The canonical nutrient vector. A nutrient object of the source, whose fields may be missing,
    is a map from nutrient to amount; `v[n] || 0` is `Amount(v, n)`. */
module Nutrients {
  import Numeric

  datatype Nutrient =
    | Calories | Protein | Carbohydrates | Fat | Fiber | Sugar | Sodium
    | SaturatedFat | TransFat | Cholesterol | Potassium | Calcium | Iron | VitaminA | VitaminC

  type Vector = map<Nutrient, real>

  /** The fifteen fields of the analysis totals, in their declaration order (calories first). */
  const AnalysisFields: seq<Nutrient> :=
    [Calories, Protein, Carbohydrates, Fat, Fiber, Sugar, Sodium,
     SaturatedFat, TransFat, Cholesterol, Potassium, Calcium, Iron, VitaminA, VitaminC]

  /** The seven fields of the daily totals of the food-log store and of the calculation service. */
  const DailyFields: seq<Nutrient> := [Calories, Protein, Carbohydrates, Fat, Fiber, Sugar, Sodium]

  /** The fourteen fields the food catalogue stores: the analysis fields without potassium. */
  const CatalogueFields: seq<Nutrient> :=
    [Calories, Protein, Carbohydrates, Fat, Fiber, Sugar, Sodium,
     Cholesterol, SaturatedFat, TransFat, VitaminA, VitaminC, Calcium, Iron]

  /** `v[n] || 0` */
  function Amount(v: Vector, n: Nutrient): real
  {
    if n in v then v[n] else 0.0
  }

  /** A vector with exactly the given fields, all zero. */
  function Zero(fields: seq<Nutrient>): (z: Vector)
    ensures z.Keys == set n | n in fields
    ensures forall n :: n in z ==> z[n] == 0.0
  {
    map n | n in fields :: 0.0
  }

  /** Field-wise `v[n] += Amount(c, n) * k` over the fields of `v`. */
  function AddScaled(v: Vector, c: Vector, k: real): (r: Vector)
    ensures r.Keys == v.Keys
    ensures forall n :: n in v ==> r[n] == v[n] + Amount(c, n) * k
  {
    map n | n in v :: v[n] + Amount(c, n) * k
  }

  /** Every field rounded to one decimal. */
  function RoundAll(v: Vector): (r: Vector)
    ensures r.Keys == v.Keys
  {
    map n | n in v :: Numeric.RoundTenth(v[n])
  }
}
