/** The daily food-log store of data/foodLogs.js: one log per (user, date), four meal lists of
    entries, each entry holding a snapshot of the catalogue food taken when it was added. */
module FoodLogs {
  import opened Wrappers
  import Js
  import Text
  import Helpers
  import opened Numeric
  import opened Nutrients
  import Foods

  datatype MealSlot = Breakfast | Lunch | Dinner | Snacks
  {
    /** The key of the slot in `dailyLog.meals`. */
    function Key(): string
    {
      match this
      case Breakfast => "breakfast"
      case Lunch => "lunch"
      case Dinner => "dinner"
      case Snacks => "snacks"
    }
  }

  /** The order in which totals, updates and deletions visit the slots. */
  const Slots: seq<MealSlot> := [Breakfast, Lunch, Dinner, Snacks]

  /** The copy of the catalogue record kept in an entry (`entry.food`). */
  datatype Snapshot = Snapshot(
    id: string,
    name: string,
    brand: Option<string>,
    category: Option<string>,
    nutrients: Option<Vector>,
    servingSize: real,
    servingUnit: string)

  /** A log entry. `nutrients` and `servingSize` at the top level are absent from the entries this
      store creates; an update may set them, and the analysis service reads them. */
  datatype Entry = Entry(
    id: string,
    foodId: string,
    food: Option<Snapshot>,
    quantity: real,
    nutrients: Option<Vector>,
    servingSize: Option<real>)

  datatype Meals = Meals(breakfast: seq<Entry>, lunch: seq<Entry>, dinner: seq<Entry>, snacks: seq<Entry>)
  {
    function Get(s: MealSlot): seq<Entry>
    {
      match s
      case Breakfast => breakfast
      case Lunch => lunch
      case Dinner => dinner
      case Snacks => snacks
    }

    function With(s: MealSlot, es: seq<Entry>): (m: Meals)
      ensures m.Get(s) == es
      ensures forall t :: t != s ==> m.Get(t) == Get(t)
    {
      match s
      case Breakfast => this.(breakfast := es)
      case Lunch => this.(lunch := es)
      case Dinner => this.(dinner := es)
      case Snacks => this.(snacks := es)
    }
  }

  const EmptyMeals := Meals([], [], [], [])

  datatype DailyLog = DailyLog(meals: Meals)

  /** What `getDailyFoodLog` returns: the meals and their seven rounded totals. */
  datatype DailyView = DailyView(meals: Meals, totals: Vector)

  /** The fields of an entry `updateFoodLogEntry` may overwrite; `None` keeps the field. */
  datatype EntryPatch = EntryPatch(
    foodId: Option<string>,
    food: Option<Option<Snapshot>>,
    quantity: Option<real>,
    nutrients: Option<Option<Vector>>,
    servingSize: Option<Option<real>>)

  datatype LogError =
    | UserIdRequired
    | Check(e: Helpers.CheckError)
    | InvalidMealType
    | QuantityNotPositive
    | FoodNotFound
    | LogNotFound
    | EntryNotFound
  {
    function Message(): string
    {
      match this
      case UserIdRequired => "User ID is required"
      case Check(e) => e.Message()
      case InvalidMealType => "Meal type must be one of: breakfast, lunch, dinner, snacks"
      case QuantityNotPositive => "Quantity must be a positive number"
      case FoodNotFound => "Food not found"
      case LogNotFound => "Food log not found"
      case EntryNotFound => "Food log entry not found"
    }
  }

  /** `validMealTypes.includes(mealType.toLowerCase())`, as the slot it names. */
  function ParseSlot(mealType: string): (r: Option<MealSlot>)
    ensures r.Some? ==> r.value.Key() == Text.ToLower(mealType)
    ensures r.None? ==> forall s: MealSlot :: s.Key() != Text.ToLower(mealType)
  {
    var k := Text.ToLower(mealType);
    if k == "breakfast" then Some(Breakfast)
    else if k == "lunch" then Some(Lunch)
    else if k == "dinner" then Some(Dinner)
    else if k == "snacks" then Some(Snacks)
    else None
  }

  /** `if (!userId) throw ...; checkString(userId, "User ID")`; the id is then used untrimmed. */
  function CheckUser(userId: Js.Value): (r: Result<string, LogError>)
    ensures r.Ok? <==> Js.Truthy(userId) && Helpers.CheckString(userId, "User ID").Ok?
    ensures !Js.Truthy(userId) ==> r == Err(UserIdRequired)
    ensures r.Ok? ==> r.value == userId.s
  {
    if !Js.Truthy(userId) then Err(UserIdRequired)
    else
      match Helpers.CheckString(userId, "User ID")
      case Err(e) => Err(Check(e))
      case Ok(_) => Ok(userId.s)
  }

  /** `checkString(v, name)` whose trimmed result is discarded: the raw string is used. */
  function CheckRaw(v: Js.Value, name: string): (r: Result<string, LogError>)
    ensures r.Ok? <==> Helpers.CheckString(v, name).Ok?
    ensures r.Ok? ==> r.value == v.s
  {
    match Helpers.CheckString(v, name)
    case Err(e) => Err(Check(e))
    case Ok(_) => Ok(v.s)
  }

  /** The snapshot `addFoodLogEntry` copies from the catalogue record. */
  function SnapshotOf(id: string, f: Foods.Food): Snapshot
  {
    Snapshot(id, f.name, f.brand, f.category, Some(f.nutrients), f.servingSize, f.servingUnit)
  }

  // ---------------------------------------------------------------- totals

  /** `entry.quantity / (entry.food.servingSize || 1)`: a zero serving size counts as 1. */
  function SnapshotMultiplier(e: Entry): real
    requires e.food.Some?
  {
    var size := e.food.value.servingSize;
    e.quantity / (if size != 0.0 then size else 1.0)
  }

  /** What one entry adds to nutrient `n`: nothing without `food.nutrients`. */
  function EntryAmount(e: Entry, n: Nutrient): real
  {
    if e.food.Some? && e.food.value.nutrients.Some? then Amount(e.food.value.nutrients.value, n) * SnapshotMultiplier(e)
    else 0.0
  }

  function EntriesSum(es: seq<Entry>, n: Nutrient): real
  {
    if es == [] then 0.0 else EntriesSum(es[..|es| - 1], n) + EntryAmount(es[|es| - 1], n)
  }

  /** The unrounded total of nutrient `n` over the given slots. */
  function SlotsSum(m: Meals, slots: seq<MealSlot>, n: Nutrient): real
  {
    if slots == [] then 0.0 else SlotsSum(m, slots[..|slots| - 1], n) + EntriesSum(m.Get(slots[|slots| - 1]), n)
  }

  /** The seven totals of a log: every entry of the four meals, scaled by its serving multiplier,
      rounded to one decimal. */
  function LogTotals(m: Meals): (t: Vector)
    ensures t.Keys == set n | n in DailyFields
  {
    map n | n in DailyFields :: RoundTenth(SlotsSum(m, Slots, n))
  }

  /** The sum over the four slots, written out. */
  lemma {:induction false} SlotsSumAll(m: Meals, n: Nutrient)
    ensures SlotsSum(m, Slots, n)
         == EntriesSum(m.breakfast, n) + EntriesSum(m.lunch, n) + EntriesSum(m.dinner, n) + EntriesSum(m.snacks, n)
  {
    assert Slots[..1][..0] == [];
    assert SlotsSum(m, Slots[..1], n) == EntriesSum(m.breakfast, n);
    assert Slots[..2][..1] == Slots[..1];
    assert SlotsSum(m, Slots[..2], n) == SlotsSum(m, Slots[..1], n) + EntriesSum(m.lunch, n);
    assert Slots[..3][..2] == Slots[..2];
    assert SlotsSum(m, Slots[..3], n) == SlotsSum(m, Slots[..2], n) + EntriesSum(m.dinner, n);
    assert Slots[..3] == Slots[..|Slots| - 1];
  }

  /** An entry appended to one meal adds exactly its own scaled amount to the unrounded total. */
  lemma {:induction false} AppendAddsEntry(m: Meals, s: MealSlot, e: Entry, n: Nutrient)
    ensures SlotsSum(m.With(s, m.Get(s) + [e]), Slots, n) == SlotsSum(m, Slots, n) + EntryAmount(e, n)
  {
    var m' := m.With(s, m.Get(s) + [e]);
    assert (m.Get(s) + [e])[..|m.Get(s)|] == m.Get(s);
    assert EntriesSum(m'.Get(s), n) == EntriesSum(m.Get(s), n) + EntryAmount(e, n);
    SlotsSumAll(m, n);
    SlotsSumAll(m', n);
  }

  /** A date with no log reads exactly like a log with four empty meals. */
  lemma EmptyLogTotalsZero()
    ensures LogTotals(EmptyMeals) == Zero(DailyFields)
  {
    forall n | n in DailyFields
      ensures SlotsSum(EmptyMeals, Slots, n) == 0.0
    {
      SlotsSumAll(EmptyMeals, n);
    }
  }

  /** The inner `forEach` of the totals loop: each entry with `food.nutrients` adds its scaled amounts. */
  method AddEntries(start: Vector, es: seq<Entry>) returns (totals: Vector)
    ensures totals.Keys == start.Keys
    ensures forall n :: n in totals ==> totals[n] == start[n] + EntriesSum(es, n)
  {
    totals := start;
    var j := 0;
    while j < |es|
      invariant 0 <= j <= |es|
      invariant totals.Keys == start.Keys
      invariant forall n :: n in totals ==> totals[n] == start[n] + EntriesSum(es[..j], n)
    {
      assert es[..j + 1][..j] == es[..j];
      var e := es[j];
      if e.food.Some? && e.food.value.nutrients.Some? {
        totals := AddScaled(totals, e.food.value.nutrients.value, SnapshotMultiplier(e));
      }
      j := j + 1;
    }
    assert es[..j] == es;
  }

  /** The totals loop of `getDailyFoodLog`. */
  method Totals(m: Meals) returns (totals: Vector)
    ensures totals == LogTotals(m)
  {
    totals := Zero(DailyFields);
    var i := 0;
    while i < |Slots|
      invariant 0 <= i <= |Slots|
      invariant totals.Keys == set n | n in DailyFields
      invariant forall n :: n in totals ==> totals[n] == SlotsSum(m, Slots[..i], n)
    {
      assert Slots[..i + 1][..i] == Slots[..i];
      totals := AddEntries(totals, m.Get(Slots[i]));
      i := i + 1;
    }
    assert Slots[..i] == Slots;
    totals := RoundAll(totals);
  }

  // ---------------------------------------------------------------- finding an entry

  /** `findIndex(entry => entry._id === id)`, as an option. */
  function IndexOf(es: seq<Entry>, id: string): (r: Option<nat>)
    ensures r.Some? ==> r.value < |es| && es[r.value].id == id && forall j :: 0 <= j < r.value ==> es[j].id != id
    ensures r.None? ==> forall j :: 0 <= j < |es| ==> es[j].id != id
  {
    if es == [] then None
    else if es[0].id == id then Some(0)
    else
      var r := IndexOf(es[1..], id);
      if r.Some? then Some(r.value + 1) else None
  }

  /** The first entry with the id, searching the slots in order from `k` on. */
  function FindFrom(m: Meals, id: string, k: nat): (r: Option<(MealSlot, nat)>)
    requires k <= |Slots|
    ensures r.Some? ==> r.value.1 < |m.Get(r.value.0)| && m.Get(r.value.0)[r.value.1].id == id
    decreases |Slots| - k
  {
    if k == |Slots| then None
    else
      var found := IndexOf(m.Get(Slots[k]), id);
      if found.Some? then Some((Slots[k], found.value)) else FindFrom(m, id, k + 1)
  }

  /** The first entry with the id, breakfast to snacks. */
  function FindEntry(m: Meals, id: string): (r: Option<(MealSlot, nat)>)
    ensures r.Some? ==> r.value.1 < |m.Get(r.value.0)| && m.Get(r.value.0)[r.value.1].id == id
  {
    FindFrom(m, id, 0)
  }

  /** No slot holds the id. */
  predicate Absent(m: Meals, id: string)
  {
    forall s: MealSlot, j :: 0 <= j < |m.Get(s)| ==> m.Get(s)[j].id != id
  }

  lemma {:induction false} AbsentNotFound(m: Meals, id: string, k: nat)
    requires k <= |Slots| && Absent(m, id)
    ensures FindFrom(m, id, k).None?
    decreases |Slots| - k
  {
    if k < |Slots| {
      AbsentNotFound(m, id, k + 1);
    }
  }

  /** FindEntry's search fails only when no slot holds the id. */
  lemma {:induction false} NotFoundAbsent(m: Meals, id: string, k: nat)
    requires k <= |Slots| && FindFrom(m, id, k).None?
    ensures forall i, j :: k <= i < |Slots| && 0 <= j < |m.Get(Slots[i])| ==> m.Get(Slots[i])[j].id != id
    decreases |Slots| - k
  {
    if k < |Slots| {
      NotFoundAbsent(m, id, k + 1);
    }
  }

  /** `findIndex` */
  method FindIndex(es: seq<Entry>, id: string) returns (idx: int)
    ensures idx == -1 <==> IndexOf(es, id).None?
    ensures idx != -1 ==> idx == IndexOf(es, id).value
  {
    idx := 0;
    while idx < |es|
      invariant 0 <= idx <= |es|
      invariant forall j :: 0 <= j < idx ==> es[j].id != id
    {
      if es[idx].id == id {
        return;
      }
      idx := idx + 1;
    }
    idx := -1;
  }

  /** The `for (const mealType of mealTypes)` search with its `found` flag and `break`. */
  method Locate(m: Meals, id: string) returns (r: Option<(MealSlot, nat)>)
    ensures r == FindEntry(m, id)
  {
    var k := 0;
    while k < |Slots|
      invariant 0 <= k <= |Slots|
      invariant FindFrom(m, id, 0) == FindFrom(m, id, k)
    {
      var idx := FindIndex(m.Get(Slots[k]), id);
      if idx != -1 {
        return Some((Slots[k], idx as nat));
      }
      k := k + 1;
    }
    return None;
  }

  /** `{ ...entry, ...updateData, _id: entryId }`: the entry keeps its id, each supplied field
      replaces the stored one and every other field keeps its value. */
  function MergeEntry(e: Entry, p: EntryPatch): (r: Entry)
    ensures r.id == e.id
    ensures r.foodId == (if p.foodId.Some? then p.foodId.value else e.foodId)
    ensures r.food == (if p.food.Some? then p.food.value else e.food)
    ensures r.quantity == (if p.quantity.Some? then p.quantity.value else e.quantity)
    ensures r.nutrients == (if p.nutrients.Some? then p.nutrients.value else e.nutrients)
    ensures r.servingSize == (if p.servingSize.Some? then p.servingSize.value else e.servingSize)
  {
    Entry(
      e.id,
      if p.foodId.Some? then p.foodId.value else e.foodId,
      if p.food.Some? then p.food.value else e.food,
      if p.quantity.Some? then p.quantity.value else e.quantity,
      if p.nutrients.Some? then p.nutrients.value else e.nutrients,
      if p.servingSize.Some? then p.servingSize.value else e.servingSize)
  }

  /** An update that supplies nothing leaves the entry as it is, and repeating an update changes
      nothing more. */
  lemma MergeEntryNothingAndTwice(e: Entry, p: EntryPatch)
    ensures MergeEntry(e, EntryPatch(None, None, None, None, None)) == e
    ensures MergeEntry(MergeEntry(e, p), p) == MergeEntry(e, p)
  {
  }

  /** `splice(index, 1)` */
  function RemoveAt(es: seq<Entry>, i: nat): (r: seq<Entry>)
    requires i < |es|
    ensures |r| == |es| - 1
    ensures forall j :: 0 <= j < i ==> r[j] == es[j]
    ensures forall j :: i <= j < |r| ==> r[j] == es[j + 1]
  {
    es[..i] + es[i + 1..]
  }

  /** Appending an entry whose id no slot holds and then deleting that id gives back the meals
      as they were. */
  lemma {:induction false} AddThenDeleteRestores(m: Meals, s: MealSlot, e: Entry)
    requires Absent(m, e.id)
    ensures FindEntry(m.With(s, m.Get(s) + [e]), e.id) == Some((s, |m.Get(s)|))
    ensures var m' := m.With(s, m.Get(s) + [e]);
      m'.With(s, RemoveAt(m'.Get(s), |m.Get(s)|)) == m
  {
    var m' := m.With(s, m.Get(s) + [e]);
    var es := m.Get(s) + [e];
    assert IndexOf(es, e.id) == Some(|m.Get(s)|) by {
      var r := IndexOf(es, e.id);
      assert es[|m.Get(s)|].id == e.id;
      assert forall j :: 0 <= j < |m.Get(s)| ==> es[j].id != e.id;
    }
    var k := SlotIndex(s);
    EarlierSlotsEmpty(m', e.id, k, s, m);
    assert FindFrom(m', e.id, k) == Some((s, |m.Get(s)|));
    assert RemoveAt(m'.Get(s), |m.Get(s)|) == m.Get(s);
    var x := m'.With(s, m.Get(s));
    assert x.Get(Breakfast) == m.Get(Breakfast) && x.Get(Lunch) == m.Get(Lunch);
    assert x.Get(Dinner) == m.Get(Dinner) && x.Get(Snacks) == m.Get(Snacks);
  }

  /** The position of a slot in the search order. */
  function SlotIndex(s: MealSlot): (k: nat)
    ensures k < |Slots| && Slots[k] == s
    ensures forall i :: 0 <= i < k ==> Slots[i] != s
  {
    match s
    case Breakfast => 0
    case Lunch => 1
    case Dinner => 2
    case Snacks => 3
  }

  /** The slots before `k` hold no entry with the id, so the search reaches slot `k`. */
  lemma {:induction false} EarlierSlotsEmpty(m': Meals, id: string, k: nat, s: MealSlot, m: Meals)
    requires k < |Slots| && Slots[k] == s && Absent(m, id)
    requires forall t :: t != s ==> m'.Get(t) == m.Get(t)
    requires forall i :: 0 <= i < k ==> Slots[i] != s
    ensures FindFrom(m', id, 0) == FindFrom(m', id, k)
  {
    var i := k;
    while i > 0
      invariant 0 <= i <= k
      invariant FindFrom(m', id, i) == FindFrom(m', id, k)
    {
      i := i - 1;
      assert m'.Get(Slots[i]) == m.Get(Slots[i]);
      assert IndexOf(m'.Get(Slots[i]), id).None?;
    }
  }

  // ---------------------------------------------------------------- date ranges

  /** Insertion into a list of (date, log) pairs kept in strictly increasing date order. */
  function InsertByDate(s: seq<(string, DailyLog)>, p: (string, DailyLog)): (r: seq<(string, DailyLog)>)
    requires SortedByDate(s)
    requires forall i :: 0 <= i < |s| ==> s[i].0 != p.0
    ensures SortedByDate(r)
    ensures multiset(r) == multiset(s) + multiset{p}
  {
    if s == [] then [p]
    else if Text.Less(s[|s| - 1].0, p.0) then
      LastIsMax(s, p);
      s + [p]
    else
      Text.LessTotal(s[|s| - 1].0, p.0);
      var front := InsertByDate(s[..|s| - 1], p);
      assert s == s[..|s| - 1] + [s[|s| - 1]];
      FrontBelowLast(s, p, front);
      front + [s[|s| - 1]]
  }

  predicate SortedByDate(s: seq<(string, DailyLog)>)
  {
    forall i, j :: 0 <= i < j < |s| ==> Text.Less(s[i].0, s[j].0)
  }

  lemma LastIsMax(s: seq<(string, DailyLog)>, p: (string, DailyLog))
    requires s != [] && SortedByDate(s) && Text.Less(s[|s| - 1].0, p.0)
    ensures SortedByDate(s + [p])
  {
    forall i | 0 <= i < |s| - 1
      ensures Text.Less(s[i].0, p.0)
    {
      Text.LessTransitive(s[i].0, s[|s| - 1].0, p.0);
    }
  }

  lemma FrontBelowLast(s: seq<(string, DailyLog)>, p: (string, DailyLog), front: seq<(string, DailyLog)>)
    requires s != [] && SortedByDate(s) && SortedByDate(front)
    requires Text.Less(p.0, s[|s| - 1].0)
    requires multiset(front) == multiset(s[..|s| - 1]) + multiset{p}
    ensures SortedByDate(front + [s[|s| - 1]])
  {
    forall i | 0 <= i < |front|
      ensures Text.Less(front[i].0, s[|s| - 1].0)
    {
      assert front[i] in multiset(front);
      if front[i] != p {
        assert front[i] in multiset(s[..|s| - 1]);
        var k :| 0 <= k < |s| - 1 && s[..|s| - 1][k] == front[i];
      }
    }
  }

  /** Insertion adds exactly the new pair and its date. */
  lemma InsertDates(s: seq<(string, DailyLog)>, p: (string, DailyLog))
    requires SortedByDate(s)
    requires forall i :: 0 <= i < |s| ==> s[i].0 != p.0
    ensures var r := InsertByDate(s, p);
      && (forall q :: q in r <==> q in s || q == p)
      && DatesOf(r) == DatesOf(s) + {p.0}
  {
    var r := InsertByDate(s, p);
    forall q
      ensures q in r <==> q in s || q == p
    {
      assert q in r <==> q in multiset(r);
      assert q in s <==> q in multiset(s);
    }
    forall d | d in DatesOf(r)
      ensures d in DatesOf(s) + {p.0}
    {
      var i :| 0 <= i < |r| && r[i].0 == d;
      assert r[i] in r;
    }
    forall d | d in DatesOf(s) + {p.0}
      ensures d in DatesOf(r)
    {
      if d == p.0 {
        assert p in r;
      } else {
        var i :| 0 <= i < |s| && s[i].0 == d;
        assert s[i] in r;
      }
    }
  }

  /** `start <= date <= end` in string order. */
  predicate InRange(date: string, start: string, end: string)
  {
    Text.LessEq(start, date) && Text.LessEq(date, end)
  }

  function DatesOf(s: seq<(string, DailyLog)>): set<string>
  {
    set i | 0 <= i < |s| :: s[i].0
  }

  /** The answer to a range query: every log of `u` dated within [lo, hi], each once, with its
      date, in strictly increasing date order. */
  ghost predicate RangeResult(all: map<(string, string), DailyLog>, u: string, lo: string, hi: string,
                        found: seq<(string, DailyLog)>)
  {
    && SortedByDate(found)
    && (forall i :: 0 <= i < |found| ==>
          (u, found[i].0) in all && found[i].1 == all[(u, found[i].0)] && InRange(found[i].0, lo, hi))
    && (forall d :: (u, d) in all && InRange(d, lo, hi) ==> d in DatesOf(found))
  }

  /** The query `find({ userId, date: { $gte, $lte } }).sort({ date: 1 })` over the collection. */
  method SelectRange(all: map<(string, string), DailyLog>, u: string, lo: string, hi: string)
    returns (found: seq<(string, DailyLog)>)
    ensures RangeResult(all, u, lo, hi, found)
  {
    var pending := all.Keys;
    found := [];
    while pending != {}
      invariant pending <= all.Keys
      invariant SortedByDate(found)
      invariant forall i :: 0 <= i < |found| ==>
        (u, found[i].0) in all && (u, found[i].0) !in pending
        && found[i].1 == all[(u, found[i].0)] && InRange(found[i].0, lo, hi)
      invariant forall d :: (u, d) in all && (u, d) !in pending && InRange(d, lo, hi) ==> d in DatesOf(found)
      decreases pending
    {
      var k :| k in pending;
      pending := pending - {k};
      if k.0 == u && InRange(k.1, lo, hi) {
        var p := (k.1, all[k]);
        InsertDates(found, p);
        var before := found;
        found := InsertByDate(found, p);
        forall i | 0 <= i < |found|
          ensures found[i] == p || found[i] in before
        {
          assert found[i] in found;
        }
      }
    }
  }

  class FoodLogStore {
    /** The `foodLogs` collection, keyed by (user id, date). */
    var logs: map<(string, string), DailyLog>

    constructor ()
      ensures logs == map[]
    {
      logs := map[];
    }

    /** `addFoodLogEntry`. `date` is the normalised day the source derives from its argument, and
        `entryId` the fresh id of the new entry. */
    method AddFoodLogEntry(userId: Js.Value, foodId: Js.Value, mealType: Js.Value, quantity: Js.Value,
                           date: string, entryId: string, catalogue: map<string, Foods.Food>)
      returns (r: Result<DailyView, LogError>)
      modifies this
      ensures CheckUser(userId).Err? ==> r == Err(CheckUser(userId).error)
      ensures r.Ok? <==>
        && CheckUser(userId).Ok?
        && CheckRaw(foodId, "Food ID").Ok?
        && CheckRaw(mealType, "Meal type").Ok?
        && ParseSlot(mealType.s).Some?
        && quantity.Num? && quantity.n > 0.0
        && foodId.s in catalogue
      ensures (CheckUser(userId).Ok? && CheckRaw(foodId, "Food ID").Ok? && CheckRaw(mealType, "Meal type").Ok?
               && ParseSlot(mealType.s).None?) ==> r == Err(InvalidMealType)
      ensures (CheckUser(userId).Ok? && CheckRaw(foodId, "Food ID").Ok? && CheckRaw(mealType, "Meal type").Ok?
               && ParseSlot(mealType.s).Some? && !(quantity.Num? && quantity.n > 0.0)) ==> r == Err(QuantityNotPositive)
      ensures (CheckUser(userId).Ok? && CheckRaw(foodId, "Food ID").Ok? && CheckRaw(mealType, "Meal type").Ok?
               && ParseSlot(mealType.s).Some? && quantity.Num? && quantity.n > 0.0
               && foodId.s !in catalogue) ==> r == Err(FoodNotFound)
      ensures r.Ok? ==>
        var key := (userId.s, date);
        var before := if key in old(logs) then old(logs)[key].meals else EmptyMeals;
        var slot := ParseSlot(mealType.s).value;
        var e := Entry(entryId, foodId.s, Some(SnapshotOf(foodId.s, catalogue[foodId.s])), quantity.n, None, None);
        && logs == old(logs)[key := DailyLog(before.With(slot, before.Get(slot) + [e]))]
        && r.value == DailyView(logs[key].meals, LogTotals(logs[key].meals))
      ensures r.Err? ==> logs == old(logs)
    {
      var u := CheckUser(userId);
      if u.Err? {
        return Err(u.error);
      }
      var fid := CheckRaw(foodId, "Food ID");
      if fid.Err? {
        return Err(fid.error);
      }
      var mt := CheckRaw(mealType, "Meal type");
      if mt.Err? {
        return Err(mt.error);
      }
      var slot := ParseSlot(mt.value);
      if slot.None? {
        return Err(InvalidMealType);
      }
      if !(quantity.Num? && quantity.n > 0.0) {
        return Err(QuantityNotPositive);
      }
      if fid.value !in catalogue {
        return Err(FoodNotFound);
      }
      var key := (u.value, date);
      var meals := if key in logs then logs[key].meals else EmptyMeals;
      var e := Entry(entryId, fid.value, Some(SnapshotOf(fid.value, catalogue[fid.value])), quantity.n, None, None);
      meals := meals.With(slot.value, meals.Get(slot.value) + [e]);
      logs := logs[key := DailyLog(meals)];
      var totals := Totals(meals);
      return Ok(DailyView(meals, totals));
    }

    /** `getDailyFoodLog`: a missing log is reported as four empty meals with zero totals. */
    method GetDailyFoodLog(userId: Js.Value, date: Js.Value) returns (r: Result<DailyView, LogError>)
      ensures CheckUser(userId).Err? ==> r == Err(CheckUser(userId).error)
      ensures r.Ok? <==> CheckUser(userId).Ok? && CheckRaw(date, "Date").Ok?
      ensures r.Ok? && (userId.s, date.s) !in logs ==> r.value == DailyView(EmptyMeals, Zero(DailyFields))
      ensures r.Ok? && (userId.s, date.s) in logs ==>
        var m := logs[(userId.s, date.s)].meals;
        r.value == DailyView(m, LogTotals(m))
    {
      var u := CheckUser(userId);
      if u.Err? {
        return Err(u.error);
      }
      var d := CheckRaw(date, "Date");
      if d.Err? {
        return Err(d.error);
      }
      if (u.value, d.value) !in logs {
        return Ok(DailyView(EmptyMeals, Zero(DailyFields)));
      }
      var m := logs[(u.value, d.value)].meals;
      var totals := Totals(m);
      return Ok(DailyView(m, totals));
    }

    /** `getFoodLogByDateRange`: the user's logs dated within [start, end], oldest first. */
    method GetFoodLogByDateRange(userId: Js.Value, start: Js.Value, end: Js.Value)
      returns (r: Result<seq<(string, DailyLog)>, LogError>)
      ensures CheckUser(userId).Err? ==> r == Err(CheckUser(userId).error)
      ensures r.Ok? <==> CheckUser(userId).Ok? && CheckRaw(start, "Start date").Ok? && CheckRaw(end, "End date").Ok?
      ensures r.Ok? ==> RangeResult(logs, userId.s, start.s, end.s, r.value)
    {
      var u := CheckUser(userId);
      if u.Err? {
        return Err(u.error);
      }
      var lo := CheckRaw(start, "Start date");
      if lo.Err? {
        return Err(lo.error);
      }
      var hi := CheckRaw(end, "End date");
      if hi.Err? {
        return Err(hi.error);
      }
      var found := SelectRange(logs, u.value, lo.value, hi.value);
      return Ok(found);
    }

    /** `updateFoodLogEntry`: the first entry with the id, in slot order, is merged with the patch
        and keeps its id; every other entry is unchanged. */
    method UpdateFoodLogEntry(userId: Js.Value, date: Js.Value, entryId: Js.Value, p: EntryPatch)
      returns (r: Result<DailyView, LogError>)
      modifies this
      ensures CheckUser(userId).Err? ==> r == Err(CheckUser(userId).error)
      ensures r.Ok? <==>
        && CheckUser(userId).Ok? && CheckRaw(date, "Date").Ok? && CheckRaw(entryId, "Entry ID").Ok?
        && (userId.s, date.s) in old(logs)
        && FindEntry(old(logs)[(userId.s, date.s)].meals, entryId.s).Some?
      ensures (CheckUser(userId).Ok? && CheckRaw(date, "Date").Ok? && CheckRaw(entryId, "Entry ID").Ok?
               && (userId.s, date.s) !in old(logs)) ==> r == Err(LogNotFound)
      ensures (CheckUser(userId).Ok? && CheckRaw(date, "Date").Ok? && CheckRaw(entryId, "Entry ID").Ok?
               && (userId.s, date.s) in old(logs)
               && FindEntry(old(logs)[(userId.s, date.s)].meals, entryId.s).None?) ==> r == Err(EntryNotFound)
      ensures r.Ok? ==>
        var key := (userId.s, date.s);
        var m := old(logs)[key].meals;
        var at := FindEntry(m, entryId.s).value;
        var es := m.Get(at.0);
        && logs == old(logs)[key := DailyLog(m.With(at.0, es[at.1 := MergeEntry(es[at.1], p)]))]
        && r.value == DailyView(logs[key].meals, LogTotals(logs[key].meals))
      ensures r.Err? ==> logs == old(logs)
    {
      var u := CheckUser(userId);
      if u.Err? {
        return Err(u.error);
      }
      var d := CheckRaw(date, "Date");
      if d.Err? {
        return Err(d.error);
      }
      var id := CheckRaw(entryId, "Entry ID");
      if id.Err? {
        return Err(id.error);
      }
      var key := (u.value, d.value);
      if key !in logs {
        return Err(LogNotFound);
      }
      var m := logs[key].meals;
      var at := Locate(m, id.value);
      if at.None? {
        return Err(EntryNotFound);
      }
      var es := m.Get(at.value.0);
      m := m.With(at.value.0, es[at.value.1 := MergeEntry(es[at.value.1], p)]);
      logs := logs[key := DailyLog(m)];
      var totals := Totals(m);
      return Ok(DailyView(m, totals));
    }

    /** `deleteFoodLogEntry`: removes exactly the first entry with the id, in slot order. */
    method DeleteFoodLogEntry(userId: Js.Value, date: Js.Value, entryId: Js.Value)
      returns (r: Result<DailyView, LogError>)
      modifies this
      ensures CheckUser(userId).Err? ==> r == Err(CheckUser(userId).error)
      ensures r.Ok? <==>
        && CheckUser(userId).Ok? && CheckRaw(date, "Date").Ok? && CheckRaw(entryId, "Entry ID").Ok?
        && (userId.s, date.s) in old(logs)
        && FindEntry(old(logs)[(userId.s, date.s)].meals, entryId.s).Some?
      ensures (CheckUser(userId).Ok? && CheckRaw(date, "Date").Ok? && CheckRaw(entryId, "Entry ID").Ok?
               && (userId.s, date.s) in old(logs)
               && FindEntry(old(logs)[(userId.s, date.s)].meals, entryId.s).None?) ==> r == Err(EntryNotFound)
      ensures (CheckUser(userId).Ok? && CheckRaw(date, "Date").Ok? && CheckRaw(entryId, "Entry ID").Ok?
               && (userId.s, date.s) !in old(logs)) ==> r == Err(LogNotFound)
      ensures r.Ok? ==>
        var key := (userId.s, date.s);
        var m := old(logs)[key].meals;
        var at := FindEntry(m, entryId.s).value;
        && logs == old(logs)[key := DailyLog(m.With(at.0, RemoveAt(m.Get(at.0), at.1)))]
        && r.value == DailyView(logs[key].meals, LogTotals(logs[key].meals))
      ensures r.Err? ==> logs == old(logs)
    {
      var u := CheckUser(userId);
      if u.Err? {
        return Err(u.error);
      }
      var d := CheckRaw(date, "Date");
      if d.Err? {
        return Err(d.error);
      }
      var id := CheckRaw(entryId, "Entry ID");
      if id.Err? {
        return Err(id.error);
      }
      var key := (u.value, d.value);
      if key !in logs {
        return Err(LogNotFound);
      }
      var m := logs[key].meals;
      var at := Locate(m, id.value);
      if at.None? {
        return Err(EntryNotFound);
      }
      m := m.With(at.value.0, RemoveAt(m.Get(at.value.0), at.value.1));
      logs := logs[key := DailyLog(m)];
      var totals := Totals(m);
      return Ok(DailyView(m, totals));
    }
  }
}
