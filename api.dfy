/** The USDA client of services/apiService.js: the per-minute rate limit, the result cache, and
    the mapping of USDA nutrient lists and food records onto the application's own shape. The
    HTTP exchange is an input: each call is given the response (or the error message) it
    receives, and the clock reading `now`. */
module Api {
  import opened Wrappers
  import Text
  import opened Nutrients

  /** `API_CONFIGS.usda.rateLimit.requestsPerMinute` (config/nutritionalAPIs.js). */
  const RequestsPerMinute: nat := 60

  /** Timestamps younger than this many milliseconds count towards the limit. */
  const Window: int := 60000

  // ---------------------------------------------------------------- rate limit

  /** `requests.filter(t => now - t < 60000)` */
  function Recent(requests: seq<int>, now: int): (r: seq<int>)
    ensures |r| <= |requests|
    ensures forall i :: 0 <= i < |r| ==> now - r[i] < Window && r[i] in requests
    ensures forall t :: t in requests && now - t < Window ==> t in r
  {
    if requests == [] then []
    else
      var prev := Recent(requests[..|requests| - 1], now);
      var t := requests[|requests| - 1];
      assert requests == requests[..|requests| - 1] + [t];
      if now - t < Window then prev + [t] else prev
  }

  /** Pruning at a later time discards what pruning earlier would have, and more. */
  lemma {:induction false} PruneLater(requests: seq<int>, now: int, later: int)
    requires now <= later
    ensures Recent(Recent(requests, now), later) == Recent(requests, later)
  {
    if requests != [] {
      var front := requests[..|requests| - 1];
      var t := requests[|requests| - 1];
      PruneLater(front, now, later);
      if now - t < Window {
        var p := Recent(front, now);
        assert (p + [t])[..|p + [t]| - 1] == p;
      }
    }
  }

  datatype ApiError =
    | RateLimitExceeded(apiName: string)
    | SearchFailed(reason: string)
    | DetailsFailed(reason: string)
  {
    function Message(): string
    {
      match this
      case RateLimitExceeded(name) => "Rate limit exceeded for " + name + ". Please try again later."
      case SearchFailed(reason) => "USDA search failed: " + reason
      case DetailsFailed(reason) => "USDA food details failed: " + reason
    }
  }

  // ---------------------------------------------------------------- nutrient names

  /** One entry of `foodNutrients`: `nutrientName` may be missing, `value` may be missing or 0. */
  datatype UsdaNutrient = UsdaNutrient(nutrientName: Option<string>, value: Option<real>)

  /** `nutrient.nutrientName?.toLowerCase() || ""` */
  function NameOf(n: UsdaNutrient): string
  {
    if n.nutrientName.Some? then Text.ToLower(n.nutrientName.value) else ""
  }

  /** `nutrient.value || 0` */
  function ValueOf(n: UsdaNutrient): real
  {
    if n.value.Some? then n.value.value else 0.0
  }

  /** A rule: the keywords any of which selects the field. */
  type Rule = (seq<string>, Nutrient)

  /** The `if … else if` chain of the search mapping, in order. */
  const SearchRules: seq<Rule> := [
    (["energy"], Calories),
    (["protein"], Protein),
    (["carbohydrate", "carb"], Carbohydrates),
    (["total lipid", "fat"], Fat),
    (["fiber"], Fiber),
    (["sugars"], Sugar),
    (["sodium"], Sodium)]

  /** The details mapping: the same chain followed by three more rules. */
  const DetailRules: seq<Rule> := SearchRules + [
    (["cholesterol"], Cholesterol),
    (["saturated"], SaturatedFat),
    (["trans"], TransFat)]

  predicate Matches(name: string, keywords: seq<string>)
  {
    exists i | 0 <= i < |keywords| :: Text.Contains(name, keywords[i])
  }

  /** The field the first matching rule selects; `None` when no rule matches. */
  function FirstMatch(name: string, rules: seq<Rule>): Option<Nutrient>
  {
    if rules == [] then None
    else if Matches(name, rules[0].0) then Some(rules[0].1)
    else FirstMatch(name, rules[1..])
  }

  /** `FirstMatch` finds nothing exactly when no rule matches, and otherwise selects the field of a
      matching rule that no earlier rule preempts. */
  lemma {:induction false} FirstMatchIsFirst(name: string, rules: seq<Rule>)
    ensures FirstMatch(name, rules).None? <==> forall i :: 0 <= i < |rules| ==> !Matches(name, rules[i].0)
    ensures FirstMatch(name, rules).Some? ==>
      exists i :: (0 <= i < |rules| && rules[i].1 == FirstMatch(name, rules).value && Matches(name, rules[i].0)
        && forall j :: 0 <= j < i ==> !Matches(name, rules[j].0))
  {
    if rules != [] && !Matches(name, rules[0].0) {
      var rest := rules[1..];
      FirstMatchIsFirst(name, rest);
      assert forall i :: 1 <= i < |rules| ==> rest[i - 1] == rules[i];
      var r := FirstMatch(name, rest);
      if r.Some? {
        var i :| 0 <= i < |rest| && rest[i].1 == r.value && Matches(name, rest[i].0)
          && forall j :: 0 <= j < i ==> !Matches(name, rest[j].0);
        forall j | 0 <= j < i + 1
          ensures !Matches(name, rules[j].0)
        {
          if j > 0 { assert rules[j] == rest[j - 1]; }
        }
        assert rules[i + 1] == rest[i];
      }
    }
  }

  /** Rules appended after a chain only decide names the chain leaves undecided. */
  lemma {:induction false} FirstMatchAppend(name: string, a: seq<Rule>, b: seq<Rule>)
    ensures FirstMatch(name, a + b) == if FirstMatch(name, a).Some? then FirstMatch(name, a) else FirstMatch(name, b)
  {
    if a != [] {
      assert (a + b)[0] == a[0];
      assert (a + b)[1..] == a[1..] + b;
      FirstMatchAppend(name, a[1..], b);
    } else {
      assert a + b == b;
    }
  }

  /** Details map every name the search mapping knows to the same field. */
  lemma DetailsExtendSearch(name: string)
    ensures FirstMatch(name, SearchRules).Some? ==> FirstMatch(name, DetailRules) == FirstMatch(name, SearchRules)
    ensures FirstMatch(name, DetailRules) != FirstMatch(name, SearchRules) ==>
      FirstMatch(name, DetailRules) in {Some(Cholesterol), Some(SaturatedFat), Some(TransFat)}
  {
    var extra: seq<Rule> := [(["cholesterol"], Cholesterol), (["saturated"], SaturatedFat), (["trans"], TransFat)];
    FirstMatchAppend(name, SearchRules, extra);
    FirstMatchIsFirst(name, extra);
  }

  /** The fat rule precedes the saturated and trans rules, so a name containing "fat" never
      reaches saturated or trans fat. */
  lemma FatNameNeverSaturated(name: string)
    requires Text.Contains(name, "fat")
    ensures FirstMatch(name, DetailRules) != Some(SaturatedFat)
    ensures FirstMatch(name, DetailRules) != Some(TransFat)
  {
    FirstMatchIsFirst(name, DetailRules);
    assert DetailRules[3] == (["total lipid", "fat"], Fat);
    assert Matches(name, DetailRules[3].0) by {
      assert DetailRules[3].0[1] == "fat";
    }
    var r := FirstMatch(name, DetailRules);
    if r.Some? {
      var i :| 0 <= i < |DetailRules| && DetailRules[i].1 == r.value && Matches(name, DetailRules[i].0)
        && forall j :: 0 <= j < i ==> !Matches(name, DetailRules[j].0);
      assert i <= 3;
    }
  }

  // FoodData Central names its fat entries "Total lipid (fat)", "Fatty acids, total saturated",
  // "Fatty acids, total monounsaturated", "Fatty acids, total trans" and so on. Every fatty-acid
  // name contains "fat", so under the chain as written each of them overwrites `fat`.

  /** The details chain with the fat entries told apart: total fat is the "total lipid" entry, and
      the saturated and trans rules name the totals, so that "monounsaturated" matches neither. */
  const CorrectedDetailRules: seq<Rule> := [
    (["energy"], Calories),
    (["protein"], Protein),
    (["carbohydrate", "carb"], Carbohydrates),
    (["total lipid"], Fat),
    (["fiber"], Fiber),
    (["sugars"], Sugar),
    (["sodium"], Sodium),
    (["cholesterol"], Cholesterol),
    (["total saturated"], SaturatedFat),
    (["total trans"], TransFat)]

  /** The first rule that matches decides, whatever the rules after it say. */
  lemma {:induction false} FirstMatchAt(name: string, rules: seq<Rule>, i: nat)
    requires i < |rules| && Matches(name, rules[i].0)
    requires forall j :: 0 <= j < i ==> !Matches(name, rules[j].0)
    ensures FirstMatch(name, rules) == Some(rules[i].1)
  {
    if i > 0 {
      FirstMatchAt(name, rules[1..], i - 1);
    }
  }

  /** A name mentioning neither energy, protein nor carbohydrate passes the first three rules of
      both chains. */
  lemma PastFirstThree(name: string)
    requires !Text.Contains(name, "energy") && !Text.Contains(name, "protein")
    requires !Text.Contains(name, "carbohydrate") && !Text.Contains(name, "carb")
    ensures forall j :: 0 <= j < 3 ==> !Matches(name, DetailRules[j].0) && !Matches(name, CorrectedDetailRules[j].0)
  {
  }

  /** As written, such a name containing "fat" stops at the fat rule. */
  lemma StopsAtFat(name: string)
    requires !Text.Contains(name, "energy") && !Text.Contains(name, "protein")
    requires !Text.Contains(name, "carbohydrate") && !Text.Contains(name, "carb")
    requires Text.Contains(name, "fat")
    ensures FirstMatch(name, DetailRules) == Some(Fat)
  {
    PastFirstThree(name);
    assert Matches(name, DetailRules[3].0) by {
      assert DetailRules[3].0[1] == "fat";
    }
    FirstMatchAt(name, DetailRules, 3);
  }

  /** Corrected, a name that mentions none of the first eight rules' keywords passes them. */
  lemma PastCorrectedEight(name: string)
    requires !Text.Contains(name, "energy") && !Text.Contains(name, "protein")
    requires !Text.Contains(name, "carbohydrate") && !Text.Contains(name, "carb")
    requires !Text.Contains(name, "total lipid") && !Text.Contains(name, "fiber")
    requires !Text.Contains(name, "sugars") && !Text.Contains(name, "sodium")
    requires !Text.Contains(name, "cholesterol")
    ensures forall j :: 0 <= j < 8 ==> !Matches(name, CorrectedDetailRules[j].0)
  {
  }

  /** The fields a nutrient list sets: each entry writes the field of its first matching rule, so a
      later entry for the same field overwrites an earlier one. */
  function Mapped(ns: seq<UsdaNutrient>, rules: seq<Rule>): Vector
  {
    if ns == [] then map[]
    else
      var prev := Mapped(ns[..|ns| - 1], rules);
      var last := ns[|ns| - 1];
      var field := FirstMatch(NameOf(last), rules);
      if field.Some? then prev[field.value := ValueOf(last)] else prev
  }

  /** Only fields named by some rule are ever set. */
  lemma {:induction false} MappedFieldsHaveRules(ns: seq<UsdaNutrient>, rules: seq<Rule>)
    ensures forall k :: k in Mapped(ns, rules) ==> exists i :: 0 <= i < |rules| && rules[i].1 == k
  {
    if ns != [] {
      MappedFieldsHaveRules(ns[..|ns| - 1], rules);
      FirstMatchIsFirst(NameOf(ns[|ns| - 1]), rules);
    }
  }

  /** The field an entry writes. */
  function FieldOf(n: UsdaNutrient, rules: seq<Rule>): Option<Nutrient>
  {
    FirstMatch(NameOf(n), rules)
  }

  /** A field is set exactly when some entry selects it. */
  lemma {:induction false} SetWhenSelected(ns: seq<UsdaNutrient>, rules: seq<Rule>, k: Nutrient)
    ensures k in Mapped(ns, rules) <==> exists i :: 0 <= i < |ns| && FieldOf(ns[i], rules) == Some(k)
  {
    if ns != [] {
      var front := ns[..|ns| - 1];
      SetWhenSelected(front, rules, k);
      assert forall i :: 0 <= i < |front| ==> front[i] == ns[i];
      if k in Mapped(ns, rules) && FieldOf(ns[|ns| - 1], rules) != Some(k) {
        var i :| 0 <= i < |front| && FieldOf(front[i], rules) == Some(k);
        assert FieldOf(ns[i], rules) == Some(k);
      }
    }
  }

  /** A set field holds the value of the last entry that selects it. */
  lemma {:induction false} LastWriteWins(ns: seq<UsdaNutrient>, rules: seq<Rule>, k: Nutrient) returns (i: nat)
    requires k in Mapped(ns, rules)
    ensures i < |ns| && FieldOf(ns[i], rules) == Some(k) && Mapped(ns, rules)[k] == ValueOf(ns[i])
    ensures forall j :: i < j < |ns| ==> FieldOf(ns[j], rules) != Some(k)
  {
    assert ns != [];
    var last := ns[|ns| - 1];
    if FieldOf(last, rules) == Some(k) {
      LastFieldSet(ns, rules, k);
      i := |ns| - 1;
    } else {
      var front := ns[..|ns| - 1];
      OtherFieldKept(ns, rules, k);
      i := LastWriteWins(front, rules, k);
      assert ns[i] == front[i];
      forall j | i < j < |ns|
        ensures FieldOf(ns[j], rules) != Some(k)
      {
        if j < |front| {
          assert ns[j] == front[j];
        }
      }
    }
  }

  /** The last entry's write is the one that stays. */
  lemma LastFieldSet(ns: seq<UsdaNutrient>, rules: seq<Rule>, k: Nutrient)
    requires ns != [] && FieldOf(ns[|ns| - 1], rules) == Some(k)
    ensures k in Mapped(ns, rules) && Mapped(ns, rules)[k] == ValueOf(ns[|ns| - 1])
  {
  }

  /** An entry that selects another field leaves field `k` as the entries before it set it. */
  lemma OtherFieldKept(ns: seq<UsdaNutrient>, rules: seq<Rule>, k: Nutrient)
    requires ns != [] && FieldOf(ns[|ns| - 1], rules) != Some(k)
    ensures var front := Mapped(ns[..|ns| - 1], rules);
      && (k in Mapped(ns, rules) <==> k in front)
      && (k in front ==> Mapped(ns, rules)[k] == front[k])
  {
  }

  /** The `forEach` over `foodNutrients` that fills the `nutrients` object. */
  method MapNutrients(ns: seq<UsdaNutrient>, rules: seq<Rule>) returns (v: Vector)
    ensures v == Mapped(ns, rules)
  {
    v := map[];
    for i := 0 to |ns|
      invariant v == Mapped(ns[..i], rules)
    {
      assert ns[..i + 1][..i] == ns[..i];
      var field := FirstMatch(NameOf(ns[i]), rules);
      if field.Some? {
        v := v[field.value := ValueOf(ns[i])];
      }
    }
    assert ns[..|ns|] == ns;
  }

  // ---------------------------------------------------------------- records

  /** The fields of a USDA food the mapping reads. */
  datatype UsdaFood = UsdaFood(
    fdcId: Option<nat>,
    description: Option<string>,
    brandOwner: Option<string>,
    brandedFoodCategory: Option<string>,
    foodCategoryDescription: Option<string>,
    foodNutrients: Option<seq<UsdaNutrient>>)

  /** The application's shape of a USDA food. */
  datatype UsdaRecord = UsdaRecord(
    fdcId: Option<nat>,
    name: string,
    brand: Option<string>,
    category: Option<string>,
    nutrients: Vector,
    servingSize: real,
    servingUnit: string,
    source: string,
    sourceId: Option<string>)

  /** A string that is present and non-empty is truthy. */
  predicate Given(s: Option<string>)
  {
    s.Some? && s.value != ""
  }

  /** `a || b || null` over optional strings. */
  function Either(a: Option<string>, b: Option<string>): (r: Option<string>)
    ensures r.Some? <==> Given(a) || Given(b)
    ensures r.Some? ==> r.value != "" && (r == a || r == b)
  {
    if Given(a) then a else if Given(b) then b else None
  }

  /** The normalised record of a food with its mapped nutrients. */
  function Normalize(f: UsdaFood, nutrients: Vector): (r: UsdaRecord)
    ensures r.servingSize == 100.0 && r.servingUnit == "g" && r.source == "usda"
    ensures r.fdcId == f.fdcId && r.nutrients == nutrients
    ensures r.sourceId.Some? <==> f.fdcId.Some?
    ensures f.fdcId.Some? ==> r.sourceId == Some(Text.Digits(f.fdcId.value))
    ensures r.name != ""
    ensures Given(f.description) ==> r.name == f.description.value
    ensures !Given(f.description) && Given(f.brandOwner) ==> r.name == f.brandOwner.value
    ensures !Given(f.description) && !Given(f.brandOwner) ==> r.name == "Unknown"
    ensures r.brand == (if Given(f.brandOwner) then f.brandOwner else None)
    ensures r.category == Either(f.brandedFoodCategory, f.foodCategoryDescription)
  {
    var name := Either(f.description, f.brandOwner);
    UsdaRecord(f.fdcId, if name.Some? then name.value else "Unknown", Either(f.brandOwner, None),
               Either(f.brandedFoodCategory, f.foodCategoryDescription), nutrients, 100.0, "g", "usda",
               if f.fdcId.Some? then Some(Text.Digits(f.fdcId.value)) else None)
  }

  /** The record a food maps to under the given rules. */
  function RecordOf(f: UsdaFood, rules: seq<Rule>): UsdaRecord
  {
    Normalize(f, if f.foodNutrients.Some? then Mapped(f.foodNutrients.value, rules) else map[])
  }

  /** What the search endpoint answers: `foods` and `totalHits`, either possibly missing. */
  datatype SearchResponse = SearchResponse(foods: Option<seq<UsdaFood>>, totalHits: Option<real>)

  datatype SearchResult = SearchResult(foods: seq<UsdaRecord>, totalHits: real)

  /** `{ foods: (data.foods || []).map(...), totalHits: data.totalHits || 0 }` */
  function SearchResultOf(data: SearchResponse): (r: SearchResult)
    ensures |r.foods| == if data.foods.Some? then |data.foods.value| else 0
    ensures forall i :: 0 <= i < |r.foods| ==> r.foods[i] == RecordOf(data.foods.value[i], SearchRules)
  {
    var foods := if data.foods.Some? then data.foods.value else [];
    SearchResult(seq(|foods|, i requires 0 <= i < |foods| => RecordOf(foods[i], SearchRules)),
                 if data.totalHits.Some? then data.totalHits.value else 0.0)
  }

  /** `usda_search_${query}_${pageSize}` */
  function SearchKey(query: string, pageSize: nat): string
  {
    "usda_search_" + query + "_" + Text.Digits(pageSize)
  }

  /** `usda_food_${fdcId}` */
  function FoodKey(fdcId: string): string
  {
    "usda_food_" + fdcId
  }

  /** The two kinds of key never collide, so the one cache holds both kinds of result apart. */
  lemma SearchKeyIsNotFoodKey(query: string, pageSize: nat, fdcId: string)
    ensures SearchKey(query, pageSize) != FoodKey(fdcId)
  {
    assert SearchKey(query, pageSize)[5] == 's';
    assert FoodKey(fdcId)[5] == 'f';
  }

  /** A search key ends with `_` followed by the page size's digits only. */
  lemma KeyTail(query: string, pageSize: nat)
    ensures var s, d := SearchKey(query, pageSize), Text.Digits(pageSize);
      && s[|s| - |d| - 1] == '_'
      && forall i :: |s| - |d| <= i < |s| ==> '0' <= s[i] <= '9'
  {
    var s, d := SearchKey(query, pageSize), Text.Digits(pageSize);
    assert s == ("usda_search_" + query + "_") + d;
    forall i | |s| - |d| <= i < |s|
      ensures '0' <= s[i] <= '9'
    {
      assert s[i] == d[i - (|s| - |d|)];
    }
  }

  /** Different searches have different keys: the page size is the digits after the last `_`. */
  lemma SearchKeyInjective(q1: string, p1: nat, q2: string, p2: nat)
    requires SearchKey(q1, p1) == SearchKey(q2, p2)
    ensures q1 == q2 && p1 == p2
  {
    var s := SearchKey(q1, p1);
    var d1, d2 := Text.Digits(p1), Text.Digits(p2);
    var n := |s|;
    KeyTail(q1, p1);
    KeyTail(q2, p2);
    assert |d1| == |d2|;
    {
      assert d1 == s[n - |d1|..] == d2;
      Text.DigitsInjective(p1, p2);
      assert "usda_search_" + q1 == s[..n - |d1| - 1] == "usda_search_" + q2;
      assert q1 == ("usda_search_" + q1)[12..];
      assert q2 == ("usda_search_" + q2)[12..];
    }
  }

  // ---------------------------------------------------------------- the client

  class ApiService {
    /** `rateLimitTracker.usda.requests`: timestamps of the calls of the last minute. */
    var requests: seq<int>
    /** The cache entries under search keys. */
    var searchCache: map<string, SearchResult>
    /** The cache entries under food keys. */
    var detailCache: map<string, UsdaRecord>

    constructor()
      ensures requests == [] && searchCache == map[] && detailCache == map[]
    {
      requests := [];
      searchCache := map[];
      detailCache := map[];
    }

    /** `checkRateLimit(apiName)` at time `now`. Only "usda" has a configuration; for any other
        name the call passes and records nothing. The pruning is kept even when the call is
        refused. */
    method CheckRateLimit(apiName: string, now: int) returns (r: Result<bool, ApiError>)
      modifies this
      ensures searchCache == old(searchCache) && detailCache == old(detailCache)
      ensures apiName != "usda" ==> r == Ok(true) && requests == old(requests)
      ensures apiName == "usda" && |Recent(old(requests), now)| >= RequestsPerMinute ==>
        r == Err(RateLimitExceeded(apiName)) && requests == Recent(old(requests), now)
      ensures apiName == "usda" && |Recent(old(requests), now)| < RequestsPerMinute ==>
        r == Ok(true) && requests == Recent(old(requests), now) + [now]
      ensures r.Ok? && apiName == "usda" ==> |requests| <= RequestsPerMinute
      ensures |old(requests)| <= RequestsPerMinute ==> |requests| <= RequestsPerMinute
    {
      if apiName != "usda" {
        return Ok(true);
      }
      requests := Recent(requests, now);
      if |requests| >= RequestsPerMinute {
        return Err(RateLimitExceeded(apiName));
      }
      requests := requests + [now];
      r := Ok(true);
    }

    /** The `map` over the response's foods, each through the nutrient loop. */
    static method TransformFoods(foods: seq<UsdaFood>) returns (records: seq<UsdaRecord>)
      ensures |records| == |foods|
      ensures forall i :: 0 <= i < |foods| ==> records[i] == RecordOf(foods[i], SearchRules)
    {
      records := [];
      for i := 0 to |foods|
        invariant |records| == i
        invariant forall k :: 0 <= k < i ==> records[k] == RecordOf(foods[k], SearchRules)
      {
        var nutrients: Vector := map[];
        if foods[i].foodNutrients.Some? {
          nutrients := MapNutrients(foods[i].foodNutrients.value, SearchRules);
        }
        records := records + [Normalize(foods[i], nutrients)];
      }
    }

    /** `searchUSDAFoods(query, pageSize)` at time `now`, given what the request returns. A cached
        result is returned without a rate check; a refused rate check is not wrapped; a failed
        request is wrapped and nothing is cached; a success is cached under its key. */
    method SearchUSDAFoods(query: string, pageSize: nat, now: int, fetched: Result<SearchResponse, string>)
      returns (r: Result<SearchResult, ApiError>)
      modifies this
      ensures detailCache == old(detailCache)
      ensures SearchKey(query, pageSize) in old(searchCache) ==>
        r == Ok(old(searchCache)[SearchKey(query, pageSize)]) && requests == old(requests)
        && searchCache == old(searchCache)
      ensures SearchKey(query, pageSize) !in old(searchCache) && |Recent(old(requests), now)| >= RequestsPerMinute ==>
        r == Err(RateLimitExceeded("usda")) && requests == Recent(old(requests), now) && searchCache == old(searchCache)
      ensures SearchKey(query, pageSize) !in old(searchCache) && |Recent(old(requests), now)| < RequestsPerMinute ==>
        requests == Recent(old(requests), now) + [now]
        && (fetched.Err? ==> r == Err(SearchFailed(fetched.error)) && searchCache == old(searchCache))
        && (fetched.Ok? ==> r == Ok(SearchResultOf(fetched.value))
                            && searchCache == old(searchCache)[SearchKey(query, pageSize) := r.value])
    {
      var key := SearchKey(query, pageSize);
      if key in searchCache {
        return Ok(searchCache[key]);
      }
      var allowed := CheckRateLimit("usda", now);
      if allowed.Err? {
        return Err(allowed.error);
      }
      if fetched.Err? {
        return Err(SearchFailed(fetched.error));
      }
      var data := fetched.value;
      var records := TransformFoods(if data.foods.Some? then data.foods.value else []);
      var result := SearchResult(records, if data.totalHits.Some? then data.totalHits.value else 0.0);
      assert result == SearchResultOf(data);
      searchCache := searchCache[key := result];
      r := Ok(result);
    }

    /** `getUSDAFoodDetails(fdcId)` at time `now`, given what the request returns; the same flow as
        the search, with the longer rule chain. */
    method GetUSDAFoodDetails(fdcId: string, now: int, fetched: Result<UsdaFood, string>)
      returns (r: Result<UsdaRecord, ApiError>)
      modifies this
      ensures searchCache == old(searchCache)
      ensures FoodKey(fdcId) in old(detailCache) ==>
        r == Ok(old(detailCache)[FoodKey(fdcId)]) && requests == old(requests) && detailCache == old(detailCache)
      ensures FoodKey(fdcId) !in old(detailCache) && |Recent(old(requests), now)| >= RequestsPerMinute ==>
        r == Err(RateLimitExceeded("usda")) && requests == Recent(old(requests), now) && detailCache == old(detailCache)
      ensures FoodKey(fdcId) !in old(detailCache) && |Recent(old(requests), now)| < RequestsPerMinute ==>
        requests == Recent(old(requests), now) + [now]
        && (fetched.Err? ==> r == Err(DetailsFailed(fetched.error)) && detailCache == old(detailCache))
        && (fetched.Ok? ==> r == Ok(RecordOf(fetched.value, DetailRules))
                            && detailCache == old(detailCache)[FoodKey(fdcId) := r.value])
    {
      var key := FoodKey(fdcId);
      if key in detailCache {
        return Ok(detailCache[key]);
      }
      var allowed := CheckRateLimit("usda", now);
      if allowed.Err? {
        return Err(allowed.error);
      }
      if fetched.Err? {
        return Err(DetailsFailed(fetched.error));
      }
      var food := fetched.value;
      var nutrients: Vector := map[];
      if food.foodNutrients.Some? {
        nutrients := MapNutrients(food.foodNutrients.value, DetailRules);
      }
      var result := Normalize(food, nutrients);
      detailCache := detailCache[key := result];
      r := Ok(result);
    }
  }
}
