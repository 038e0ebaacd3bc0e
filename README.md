# Diet analysis app: a verified model of its nutrition core

This project models, in Dafny, the server-side core of a diet-tracking web application. Users log foods
into four meals per day. The application keeps a food catalogue and per-user nutritional goals, computes
body metrics (BMR, TDEE, BMI, macro split, target calories), aggregates a day's log into nutrient totals,
and derives insights, trends, meal recommendations and a letter-graded score. Foods can be looked up in
the USDA FoodData Central service behind a rate limiter and a cache. A small Python registration store
with its unit tests completes the core.

Modules, one per source file, plus the shared vocabulary:

- `Wrappers`, `Js`, `Text`, `Numeric` and `Nutrients` hold the shared vocabulary:
  - `Wrappers` is `Option`/`Result`;
  - `Js` is JavaScript values and truthiness;
  - `Text` covers `trim` (over the white space and line terminators JavaScript removes), ASCII
    `toLowerCase`, `length` in UTF-16 code units, substring search, string order and decimal digits;
  - `Numeric` covers `Math.round` as `Floor(x + 0.5)` and one-decimal rounding;
  - `Numeric` also has an extended real (`Finite`/`PosInf`/`NegInf`/`NaN`) for the divisions by a
    goal that can be zero or not a number;
  - `Nutrients` is the fifteen-field nutrient vector as a map.
- `Helpers` covers `helpers.js`: `checkString`, `checkUsername`, `checkPassword` and
  `checkForNoRestrictions`.
- `Calculation` covers `services/nutritionalCalculationService.js`: the body-metric formulas, the
  totals summer and the deficit analyser.
- `AnalysisTotals` and `Analysis` cover `services/nutritionalAnalysisService.js`:
  - `AnalysisTotals` is the day/meal aggregation;
  - `Analysis` is the insights, trends, meal recommendations and score.
- `FoodLogs` covers `data/foodLogs.js`: the daily-log collection as a class over a map keyed by
  (user, date).
- `Foods` covers `data/foods.js`: the catalogue as a class over a map keyed by id.
- `Goals` covers `data/nutritionalGoals.js`: the goals collection as a class over a sequence of
  records, searched the way `findOne({ userId })` searches, first match wins.
- `Api` covers `services/apiService.js`: the rate limiter, the two caches, nutrient-name mapping and
  record normalisation.
- `UsdaFatNames` works through the fat entries of a FoodData Central food under the nutrient rules of
  `Api`.
- `Signup` covers `test/signup.py`, the registration store, and the scenarios of
  `test/test_signup.py`.

Inputs the core cannot compute are parameters:

- the current time in milliseconds;
- the fresh ids the database would assign;
- the normalised date of a new log entry;
- the HTTP response of the USDA service;
- the catalogue search used by the meal recommender.

Each loop of the source that accumulates state is a method with loop invariants, proved equal to a
specification function. The per-field rounding passes, the rate-limit `filter` and the trend `reduce`
are functions over values (see "## Left out"). The properties the source promises are proved as
lemmas about those functions. Examples:

- the day total is the sum of the meal totals plus the calories of entries filed under an unknown meal;
- the recommender returns at most five foods in the calorie window, nearest first, and none of the
  foods it leaves out is nearer;
- the first matching nutrient rule wins;
- adding an entry and then deleting it restores the log.

## Model

| member | source | states |
|---|---|---|
| Text.TrimIdempotent | helpers.js:1-10 | trimming an already trimmed string changes nothing |
| Text.TrimPadded | helpers.js:1-10 | whitespace added on both sides of a string is removed again by trim |
| Text.ToLowerIdempotent | helpers.js:30 | lowercasing twice equals lowercasing once |
| Text.Utf16Length | helpers.js:14 | `length` counts UTF-16 code units: at least one and at most two per character |
| Text.Utf16LengthBmp | helpers.js:14 | on text inside the Basic Multilingual Plane `length` is the number of characters |
| Text.EmojiLength | helpers.js:35 | a string of four ASCII characters and two emoji has six characters but a `length` of 8 |
| Text.DigitsInjective | services/apiService.js:127-137 | distinct numbers have distinct decimal renderings, so `sourceId` and cache keys identify the number |
| Numeric.RoundBounds | services/nutritionalCalculationService.js:52 | `Math.round(x)` is within one half of `x` |
| Numeric.RoundMonotone | services/nutritionalCalculationService.js:52 | `Math.round` is monotone |
| Numeric.RoundTenthBounds | services/nutritionalAnalysisService.js:124-132 | rounding to one decimal moves a value by at most 0.05 |
| Numeric.RoundTenthMonotone | services/nutritionalAnalysisService.js:124-132 | one-decimal rounding is monotone |
| Helpers.CheckString | helpers.js:1-10 | accepts exactly the strings that are not all whitespace and returns them trimmed; a non-string and a blank string give their two distinct errors |
| Helpers.CheckUsername | helpers.js:12-31 | accepts exactly the trimmed strings whose UTF-16 `length` is at least 5, made of ASCII letters and digits with at least one letter, and returns them lower-cased; the string-check errors, a short name, a special character and a missing letter each give their own error, in the source's order |
| Helpers.ScanUsername | helpers.js:17-29 | the character loop accepts exactly the all-letter-or-digit strings with a letter, returns them lower-cased, reports any other character as a special character, and a letterless name as missing a letter |
| Helpers.UsernameIdempotent | helpers.js:12-31 | a returned username is itself accepted and maps to itself |
| Helpers.LowerUsername | helpers.js:17-30 | lowercasing keeps a username valid and alphanumeric |
| Helpers.AlphanumericIsTrimmed | helpers.js:12-31 | an alphanumeric string is unchanged by trim |
| Helpers.UsernameExamples | helpers.test.js:3-10 | "USERNAME123" is accepted as "username123" and "" is rejected |
| Helpers.CheckPassword | helpers.js:33-59 | accepts exactly the trimmed strings whose UTF-16 `length` is at least 8, with no space and with an uppercase letter, a lowercase letter, a digit and another character, and returns them trimmed; the string-check errors, a short password, a space and a missing kind each give their own error, in the source's order |
| Helpers.ScanPassword | helpers.js:38-56 | for any string, the character loop accepts exactly those with no space and all four kinds of character and returns them unchanged; a space anywhere is reported as a space, and otherwise a missing kind as too weak |
| Helpers.PaddedPasswordSameVerdict | helpers.js:33-59 | surrounding whitespace never changes the verdict on a password and is dropped from the result |
| Helpers.EmojiPasswordStrong | helpers.js:33-59 | six characters, two of them emoji, pass the 8-character minimum, because `length` counts the emoji twice |
| Helpers.CheckForNoRestrictions | helpers.js:61-69 | true exactly when no value of the object is truthy |
| Signup.ValidEmailHasOneAt | test/signup.py:20-22 | an address the pattern accepts contains exactly one '@', where the pattern splits it |
| Signup.TestEmailValid | test/test_signup.py:9-12 | "test@example.com" matches the e-mail pattern |
| Signup.ValidEmailValid | test/test_signup.py:24-26 | "valid@email.com" matches the e-mail pattern |
| Signup.NoAtInvalid | test/test_signup.py:20-22 | "invalidemail" does not match the e-mail pattern |
| Signup.UserDatabase.constructor | test/signup.py:5-6 | the store starts empty |
| Signup.UserDatabase.RegisterUser | test/signup.py:8-18 | missing fields, a bad address, a password under 6 characters and an existing user each give their error in that order, and leave the store unchanged; success stores the password under the address and returns true |
| Signup.SuccessfulRegistration | test/test_signup.py:9-12 | registering test@example.com with secure123 on a fresh store returns true and stores the user |
| Signup.DuplicateRegistration | test/test_signup.py:14-18 | registering user@example.com twice fails the second time with "User already exists." |
| Signup.InvalidEmailRefused | test/test_signup.py:20-22 | registering "invalidemail" fails with the invalid-address error |
| Signup.ShortPasswordRefused | test/test_signup.py:24-26 | registering valid@email.com with "123" fails with the short-password error |
| Calculation.CalculateBMR | services/nutritionalCalculationService.js:12-26 | fails exactly when an input is zero, negative or empty; otherwise the Mifflin–St Jeor value, with the male offset for "male" in any case and the female offset for every other gender |
| Calculation.BmrShape | services/nutritionalCalculationService.js:21-25 | male and female BMR differ by 166 kcal, and BMR grows with weight and height and falls with age |
| Calculation.BmrExample | test/nutritional-test.js:60 | 70 kg, 175 cm, 25 years, male gives 1673.75 |
| Calculation.ParseActivity | services/nutritionalCalculationService.js:39-50 | finds the activity level whose key is the lowercased input, or reports that no level has that key |
| Calculation.CalculateTDEE | services/nutritionalCalculationService.js:34-53 | fails on a zero BMR or an empty level, and on a level that is neither a table key nor a name inherited from `Object.prototype`; a known level gives BMR times its multiplier, rounded, and an inherited name such as "constructor" gives NaN |
| Calculation.ActivityKeysOwn | services/nutritionalCalculationService.js:39-45 | no activity-level key is a name inherited from `Object.prototype` |
| Calculation.InheritedLevelIsNaN | services/nutritionalCalculationService.js:47-52 | the level "Constructor" is accepted and gives a NaN TDEE instead of the invalid-level error |
| Calculation.TdeeMonotoneInActivity | services/nutritionalCalculationService.js:39-52 | a more active level never gives a smaller TDEE |
| Calculation.TdeeExample | test/nutritional-test.js:64 | a BMR of 1673.75, moderately active, gives 2594 |
| Calculation.CategoryOf | services/nutritionalCalculationService.js:73-82 | the four categories are the intervals below 18.5, 18.5–25, 25–30 and from 30 |
| Calculation.CategoryMonotone | services/nutritionalCalculationService.js:73-82 | a larger BMI never gets a lower category |
| Calculation.CalculateBMI | services/nutritionalCalculationService.js:61-88 | fails exactly on a non-positive weight or height; the category comes from the unrounded BMI and the value is the BMI to within 0.05 |
| Calculation.BmiCategoryMonotoneInWeight | services/nutritionalCalculationService.js:61-88 | at a fixed height, more weight never lowers the category |
| Calculation.BmiValueAndCategoryCanDisagree | services/nutritionalCalculationService.js:70-87 | a BMI shown as 25.0 can still be in the normal-weight category |
| Calculation.BmiExample | test/nutritional-test.js:68 | 70 kg at 175 cm gives 22.9, normal weight |
| Calculation.Percent | services/nutritionalCalculationService.js:101-110 | a missing or zero percentage takes the default |
| Calculation.CalculateMacronutrients | services/nutritionalCalculationService.js:96-136 | fails on non-positive calories and on percentages not summing to 100 within 0.1; otherwise protein and carbohydrate grams at 4 kcal/g and fat at 9 kcal/g, with defaults 25/45/30 |
| Calculation.DefaultSplitAccepted | services/nutritionalCalculationService.js:101-116 | the default split is always accepted for positive calories |
| Calculation.ShareCaloriesAgree | services/nutritionalCalculationService.js:118-134 | a macro's rounded grams times its kcal/g, rounded, is within 1 kcal of the macro's rounded calories |
| Calculation.MacrosExample | test/nutritional-test.js:72 | 2000 kcal gives 125 g protein, 225 g carbohydrates and 66.7 g fat |
| Calculation.ParseGoal | services/nutritionalCalculationService.js:153-161 | recognises exactly weight_loss, weight_gain and maintenance, case-insensitively |
| Calculation.DailyChange | services/nutritionalCalculationService.js:150-151 | the daily change is 3500 kcal per pound spread over 7 days, 500 kcal per pound of weekly change |
| Calculation.CalculateTargetCalories | services/nutritionalCalculationService.js:145-163 | fails on a zero TDEE, an empty goal or an unknown goal; loss and gain subtract and add the daily change, maintenance keeps the TDEE, each rounded |
| Calculation.TargetsOrdered | services/nutritionalCalculationService.js:153-162 | loss ≤ maintenance ≤ gain, and gain minus loss is within 1 kcal of 1000 kcal per pound of weekly change |
| Calculation.CalculateDailyTotals | services/nutritionalCalculationService.js:213-248 | the loops compute, for each of the seven fields, the one-decimal rounded sum over every food of every meal, with no quantity scaling; no meals gives zeros |
| Calculation.AddFoods | services/nutritionalCalculationService.js:226-238 | the inner loop adds every food's fields to the running totals once, unscaled, and keeps the same fields |
| Calculation.NutrientSumAppend | services/nutritionalCalculationService.js:224-240 | summing a nutrient over two lists of foods is the sum of the two sums |
| Calculation.MealAdds | services/nutritionalCalculationService.js:224-240 | one more meal adds exactly that meal's foods to the total |
| Calculation.Advise | services/nutritionalCalculationService.js:190-203 | the over-calories, under-calories, protein and fat messages appear exactly under their deficit conditions, in check order |
| Calculation.AnalyzeDailyNutrition | services/nutritionalCalculationService.js:171-206 | fails exactly when the log or the goals are missing; the deficits are goal minus total, and the over- and under-calorie messages never appear together |
| FoodLogs.FoodLogStore.constructor | data/foodLogs.js:31 | the collection starts empty |
| FoodLogs.ParseSlot | data/foodLogs.js:19-22 | finds the meal whose key is the lowercased meal type, or reports that none has it |
| FoodLogs.CheckUser | data/foodLogs.js:14-15 | a falsy user id is "User ID is required"; otherwise the string check decides |
| FoodLogs.LogTotals | data/foodLogs.js:131-158 | the totals have exactly the seven daily fields |
| FoodLogs.SlotsSumAll | data/foodLogs.js:143-155 | a day's total of a nutrient is the sum of its four meal totals |
| FoodLogs.AppendAddsEntry | data/foodLogs.js:82-83 | appending an entry to a meal adds exactly that entry's scaled amount to the day's total |
| FoodLogs.EmptyLogTotalsZero | data/foodLogs.js:110-130 | a day with empty meals totals zero in every field |
| FoodLogs.AddEntries | data/foodLogs.js:145-154 | the entry loop adds each entry's scaled amount to every field |
| FoodLogs.Totals | data/foodLogs.js:131-160 | the meal loop computes the rounded totals of the day |
| FoodLogs.IndexOf | data/foodLogs.js:214-216 | finds the first entry with the id, or reports that none has it |
| FoodLogs.FindEntry | data/foodLogs.js:210-228 | the first entry with the id, searching breakfast, lunch, dinner, snacks in order |
| FoodLogs.AbsentNotFound | data/foodLogs.js:210-228 | an id in no meal is not found |
| FoodLogs.NotFoundAbsent | data/foodLogs.js:210-228 | an id that is not found is in no meal from the starting one on |
| FoodLogs.FindIndex | data/foodLogs.js:214-216 | the `findIndex` loop returns the first index with the id, or -1 exactly when there is none |
| FoodLogs.Locate | data/foodLogs.js:210-228 | the meal loop finds the same entry as the specification |
| FoodLogs.MergeEntry | data/foodLogs.js:219-223 | the merged entry keeps its id; each of the food id, food, quantity, nutrients and serving size is the update's value when given and the stored value otherwise |
| FoodLogs.MergeEntryNothingAndTwice | data/foodLogs.js:219-223 | an empty update leaves the entry as it is, and applying the same update twice equals applying it once |
| FoodLogs.RemoveAt | data/foodLogs.js:274 | `splice(i, 1)` removes exactly the i-th entry and shifts the rest |
| FoodLogs.AddThenDeleteRestores | data/foodLogs.js:82-83 | after appending an entry with a fresh id, the search finds it at the end of its meal, and deleting it restores the meals |
| FoodLogs.InsertByDate | data/foodLogs.js:178-184 | inserting a log into a date-sorted list keeps it sorted and adds exactly that log |
| FoodLogs.InsertDates | data/foodLogs.js:178-184 | the dates after an insertion are the old dates plus the new one |
| FoodLogs.SelectRange | data/foodLogs.js:176-184 | returns exactly the user's logs with start ≤ date ≤ end, sorted ascending by date |
| FoodLogs.FoodLogStore.AddFoodLogEntry | data/foodLogs.js:6-96 | rejects a bad user, food id or meal type, then a non-positive quantity, then an unknown food, each with its own error; otherwise creates the day if missing, appends a snapshot entry at the end of the lowercased meal, changes nothing else, and returns the day with its totals |
| FoodLogs.FoodLogStore.GetDailyFoodLog | data/foodLogs.js:98-169 | a missing day reads as empty meals with zero totals; an existing day is returned with its rounded, serving-scaled totals |
| FoodLogs.FoodLogStore.GetFoodLogByDateRange | data/foodLogs.js:171-190 | after the string checks, returns the user's logs in the range sorted by date |
| FoodLogs.FoodLogStore.UpdateFoodLogEntry | data/foodLogs.js:192-245 | a missing day fails with the log-not-found error, a missing id with the entry-not-found error, and neither changes anything; otherwise only the first entry with the id is replaced by its merge with the update |
| FoodLogs.FoodLogStore.DeleteFoodLogEntry | data/foodLogs.js:247-296 | a missing day fails with the log-not-found error, a missing id with the entry-not-found error, and neither changes anything; otherwise only the first entry with the id is removed |
| Foods.OptionalText | data/foods.js:21-25 | a falsy optional field is absent; a given one must pass the string check and is trimmed |
| Foods.CatalogueVector | data/foods.js:41-56 | the stored vector has exactly the fourteen catalogue fields, each the input's value or 0, and no potassium |
| Foods.ValidateFood | data/foods.js:6-64 | accepts exactly the inputs whose name and given text fields pass the checks, whose nutrients are an object and whose serving size is a positive number; the record is trimmed and filled with the defaults |
| Foods.PotassiumDropped | data/foods.js:41-56 | a stored food's potassium always reads as 0 |
| Foods.ApplyPatch | data/foods.js:118-123 | each of the eight fields is the update's value when given, unchecked, and the stored value otherwise |
| Foods.PatchesCompose | data/foods.js:113-130 | two updates in a row equal one combined update, and the empty update changes nothing |
| Foods.FoodCatalogue.constructor | data/foods.js:35 | the catalogue starts empty |
| Foods.FoodCatalogue.AddFood | data/foods.js:6-72 | stores exactly the validated record under the fresh id, or fails and changes nothing; positive serving sizes are preserved |
| Foods.FoodCatalogue.CheckId | data/foods.js:75-76 | a falsy id is "Food ID is required"; otherwise the string check decides |
| Foods.FoodCatalogue.GetFoodById | data/foods.js:74-87 | returns the stored food, or "Food not found" for an unknown id |
| Foods.FoodCatalogue.UpdateFood | data/foods.js:113-130 | an unknown id fails and changes nothing; otherwise only that food is replaced by its patched version |
| Foods.FoodCatalogue.DeleteFood | data/foods.js:132-144 | an unknown id fails and changes nothing; otherwise exactly that food is removed |
| Foods.UpdateCanBreakServingSizes | data/foods.js:113-130 | an update can store a zero serving size, which adding a food never allows |
| Goals.Derived | data/nutritionalGoals.js:50-61 | a macro goal keeps its grams and its calories are the rounded grams times kcal/g |
| Goals.CheckUser | data/nutritionalGoals.js:19-20 | a falsy user id is "User ID is required"; otherwise the string check decides |
| Goals.ValidateGoals | data/nutritionalGoals.js:22-36 | accepts exactly when calories, protein, carbohydrates and fat are all positive numbers (zero is rejected); otherwise the error names the first of them that is not, in that order |
| Goals.NewGoals | data/nutritionalGoals.js:46-70 | the record holds the user id, the calories, each macro's grams with calories derived at 4/4/9 kcal per gram, and each of activity level, goal type, BMR, TDEE and BMI as given when truthy and null otherwise |
| Goals.Recompute | data/nutritionalGoals.js:112-122 | a macro whose grams is a number gets its calories recomputed, and any other is kept as given |
| Goals.Merge | data/nutritionalGoals.js:106-122 | every supplied top-level field, the user id included, replaces the stored one, and every other field is kept; a supplied `macronutrients` replaces the stored one whole with its calories recomputed from numeric grams, so derived calories stay derived |
| Goals.MergeNothing | data/nutritionalGoals.js:106-122 | an update with no fields leaves the record as it is |
| Goals.MergeIdempotent | data/nutritionalGoals.js:106-122 | sending the same update twice gives the record the first one gave |
| Goals.FindFirstIsFirst | data/nutritionalGoals.js:85 | `findOne` finds a record of the user with none before it, and finds none exactly when the user has no record |
| Goals.ReplaceFirstKeepsOwner | data/nutritionalGoals.js:124-128 | replacing the user's record by one with the same user id keeps it the record the lookup finds, and keeps one record per user |
| Goals.AppendNewUser | data/nutritionalGoals.js:40-76 | adding a record for a user who has none keeps one record per user, and the lookup finds the new record |
| Goals.MovedGoalsVanish | data/nutritionalGoals.js:124-133 | an update whose data names another user moves the record, so the record read back for the original user is null |
| Goals.MoveCanDuplicate | data/nutritionalGoals.js:124-128 | moving a record onto a user who already has one leaves that user with two records |
| Goals.SetupCaloriesAgree | data/nutritionalGoals.js:49-62 | goals set from the calculator's macro split derive macro calories within 1 kcal of the calculator's own figures |
| Goals.GoalsStore.constructor | data/nutritionalGoals.js:38 | the collection starts empty |
| Goals.GoalsStore.CreateNutritionalGoals | data/nutritionalGoals.js:6-78 | a bad user id, invalid numbers or an existing record fail in that order and change nothing; otherwise exactly the new record is appended and the lookup finds it, so a store with one record per user keeps that property |
| Goals.GoalsStore.GetNutritionalGoalsByUserId | data/nutritionalGoals.js:80-93 | after the user check, returns the user's first record, or nothing (not an error) when there is none |
| Goals.GoalsStore.UpdateNutritionalGoals | data/nutritionalGoals.js:95-134 | a missing record fails and changes nothing; otherwise only the user's first record is replaced by its merge with the update, and the result is what the lookup then finds: the merged record, unless the update moved it to another user |
| AnalysisTotals.BucketOf | services/nutritionalAnalysisService.js:80-85 | the meal buckets are exactly "breakfast", "lunch", "dinner" and "snack" |
| AnalysisTotals.EntryMultiplier | services/nutritionalAnalysisService.js:95 | a missing or zero serving size divides by 1, so the multiplier is the quantity |
| AnalysisTotals.AddEntry | services/nutritionalAnalysisService.js:89-118 | one entry adds its scaled nutrients to the day and its bucket; under an unknown key it adds only its calories to the day |
| AnalysisTotals.CalculateDailyNutritionTotals | services/nutritionalAnalysisService.js:61-138 | the nested loops compute the specification of the day: every entry of every array-valued meal folded in, then every day and bucket value rounded to one decimal |
| AnalysisTotals.StartBalanced | services/nutritionalAnalysisService.js:62-85 | the all-zero day is the sum of its all-zero buckets |
| AnalysisTotals.StepBalanced | services/nutritionalAnalysisService.js:97-103 | one entry keeps the day equal to the sum of the buckets plus the calories filed under unknown keys |
| AnalysisTotals.FoldEntriesBalanced | services/nutritionalAnalysisService.js:88-121 | the same balance holds after a whole meal list |
| AnalysisTotals.DailyIsSumOfMeals | services/nutritionalAnalysisService.js:61-121 | before rounding, each daily value equals the sum of the four bucket values, plus for calories the stray calories of entries under unknown keys |
| AnalysisTotals.BucketKeyNoStray | services/nutritionalAnalysisService.js:97-103 | entries under a bucket key contribute no stray calories |
| AnalysisTotals.CorrectedHasNoStray | services/nutritionalAnalysisService.js:80-85 | with the snack list under "snack", nothing is stray and the day is exactly the sum of the buckets |
| AnalysisTotals.StoreSnacksLoseProtein | data/foodLogs.js:55 | a 10 g protein snack stored under "snacks" adds its calories to the day but no protein |
| AnalysisTotals.CorrectedSnacksKeepProtein | services/nutritionalAnalysisService.js:80-85 | the same snack under "snack" adds its protein to the day and to the snack bucket |
| Analysis.MacroGrams | services/nutritionalAnalysisService.js:170-172 | the divisor of a macro percentage is the goal's grams |
| Analysis.PercentBelow | services/nutritionalAnalysisService.js:159-161 | for a positive goal, the percentage is below p exactly when the amount is below p % of the goal |
| Analysis.CalorieStatusOf | services/nutritionalAnalysisService.js:161-167 | low exactly below 80 %, high exactly when not low and above 120 %, balanced otherwise |
| Analysis.CalorieBands | services/nutritionalAnalysisService.js:158-167 | for a positive goal: low exactly when calories < 0.8 goal, high exactly when calories > 1.2 goal |
| Analysis.CalorieAndProteinTips | services/nutritionalAnalysisService.js:158-177 | sets the calorie status and the protein balance and pushes the snack and protein tips under their conditions, in order |
| Analysis.RemainingTips | services/nutritionalAnalysisService.js:179-191 | pushes the carbohydrate, fat and fiber tips exactly under their conditions, after the earlier ones |
| Analysis.Warn | services/nutritionalAnalysisService.js:164-198 | the over-calorie, sodium and sugar warnings appear exactly under their conditions, in check order |
| Analysis.GenerateNutritionalInsights | services/nutritionalAnalysisService.js:146-202 | every tip and warning appears exactly when its threshold is crossed, the three statuses are set exactly under their conditions, and messages are in check order |
| Analysis.AsWrittenNoMacroTips | services/nutritionalAnalysisService.js:170-185 | dividing by the macro goal objects yields NaN, so no protein, carbohydrate or fat tip is ever given |
| Analysis.CorrectedProteinTip | services/nutritionalAnalysisService.js:174-177 | dividing by the grams, the protein tip appears exactly below 80 % of the protein goal |
| Analysis.SumBounds | services/nutritionalAnalysisService.js:242-249 | a sum of n values between lo and hi lies between n·lo and n·hi |
| Analysis.MeanWithinBounds | services/nutritionalAnalysisService.js:242-249 | the mean of values between lo and hi lies between lo and hi |
| Analysis.GetNutritionalTrends | services/nutritionalAnalysisService.js:221-256 | one series entry per stored log, in log order, each that log's date and the day's total of the nutrient as the aggregation reads the stored meals (snacks under "snacks"); the averages are the rounded means, 0 for no logs |
| Analysis.CalorieAverageWithinRange | services/nutritionalAnalysisService.js:241-243 | the rounded calorie average lies within the daily minimum and maximum, to within rounding |
| Analysis.MealTarget | services/nutritionalAnalysisService.js:274-281 | a meal type inherited from `Object.prototype` gives NaN; any other gives the smaller of the meal's share of the goal (0 for an unknown meal) and the remaining calories |
| Analysis.MealTargetsSplitGoal | services/nutritionalAnalysisService.js:274-279 | when the remaining calories cover the goal, the four meal targets add up to the goal |
| Analysis.MealCategories | services/nutritionalAnalysisService.js:306-313 | an inherited meal type gives no iterable list; every other meal type searches at least one category, and an unknown one searches exactly "general" |
| Analysis.Suitable | services/nutritionalAnalysisService.js:327-335 | keeps only foods that have a calories entry within 80–120 % of the target (a food without one compares as `undefined` and is dropped), drawn from the input |
| Analysis.SuitableExactly | services/nutritionalAnalysisService.js:332-335 | a food is kept if and only if it is in the input and has a calories entry inside the window |
| Analysis.Insert | services/nutritionalAnalysisService.js:338-342 | inserting into a list adds exactly that food |
| Analysis.InsertSorted | services/nutritionalAnalysisService.js:338-342 | inserting into a distance-sorted list keeps it sorted |
| Analysis.SortByDistance | services/nutritionalAnalysisService.js:338-342 | the sort is a permutation of its input |
| Analysis.SortByDistanceSorted | services/nutritionalAnalysisService.js:338-342 | the sort orders foods by non-decreasing distance from the target |
| Analysis.Gather | services/nutritionalAnalysisService.js:316-324 | the category loop concatenates the successful searches in order, skipping failed ones |
| Analysis.Filter | services/nutritionalAnalysisService.js:332-335 | the filter loop keeps exactly the foods whose calories entry exists and lies in the window, in order |
| Analysis.TopOfRanked | services/nutritionalAnalysisService.js:338-344 | a prefix of the ranked list is sorted, fits the window, is drawn from the pool and is no farther than anything after it |
| Analysis.SearchFoodsForMeal | services/nutritionalAnalysisService.js:303-348 | fails exactly on an inherited meal type; a non-finite target returns no food; otherwise the gather, filter, sort and slice loops return the first five of the ranked suitable foods (all of them when fewer) |
| Analysis.TopRankedProperties | services/nutritionalAnalysisService.js:303-348 | that result has min(5, number of suitable foods) foods, all in the window, nearest first, drawn from the search results, none farther than a suitable food left out |
| Analysis.GetMealRecommendations | services/nutritionalAnalysisService.js:269-295 | fails without goals and, with goals, on an inherited meal type; otherwise returns the meal type, the rounded meal target and remaining calories, and the first five ranked suitable foods for that target |
| Analysis.GradeOf | services/nutritionalAnalysisService.js:371-376 | A exactly from 90, F exactly below 60 or NaN |
| Analysis.GetScoreMessage | services/nutritionalAnalysisService.js:391-403 | the message uses the same cut-points as the grade |
| Analysis.Component | services/nutritionalAnalysisService.js:360-364 | a component never exceeds 100, and is exactly 100 once the ratio reaches 1 |
| Analysis.Overall | services/nutritionalAnalysisService.js:367-369 | the overall score never exceeds 100, is 100 for full components, and is NaN if any component is |
| Analysis.CalculateNutritionalScore | services/nutritionalAnalysisService.js:356-384 | every component and the overall score are capped at 100, the grade follows the overall score and the message follows the grade |
| Analysis.FullMarks | services/nutritionalAnalysisService.js:356-384 | meeting every goal and 25 g of fiber gives 100 and an A |
| Analysis.RatioAtLeastOne | services/nutritionalAnalysisService.js:360-364 | an amount at or above a positive goal has a ratio of at least 1 |
| Analysis.AsWrittenScoreIsF | services/nutritionalAnalysisService.js:361-363 | dividing by the macro goal objects makes the overall score NaN, so every day is graded F |
| Api.Recent | services/apiService.js:28-31 | keeps exactly the request times less than 60000 ms old, and nothing else |
| Api.PruneLater | services/apiService.js:28-31 | pruning at one time and then at a later one equals pruning at the later one |
| Api.FirstMatchIsFirst | services/apiService.js:105-123 | finds nothing exactly when no rule matches; otherwise the field of a matching rule with no earlier match |
| Api.FirstMatchAppend | services/apiService.js:177-196 | rules added after a list only decide names the list leaves unmatched |
| Api.DetailsExtendSearch | services/apiService.js:177-196 | the details mapping agrees with the search mapping on every name the search mapping matches |
| Api.FatNameNeverSaturated | services/apiService.js:183-196 | in the details chain as written, a name containing "fat" never maps to saturated or trans fat |
| Api.FirstMatchAt | services/apiService.js:177-196 | a rule that matches, with no earlier rule matching, decides the field |
| Api.StopsAtFat | services/apiService.js:177-184 | a name that mentions no energy, protein or carbohydrate keyword but contains "fat" maps to total fat |
| UsdaFatNames.TotalLipidIsFat | services/apiService.js:183-184 | "total lipid (fat)" maps to total fat, as written and corrected |
| UsdaFatNames.SaturatedField | services/apiService.js:183-194 | "fatty acids, total saturated" maps to total fat as written, and to saturated fat corrected |
| UsdaFatNames.MonounsaturatedField | services/apiService.js:183-194 | "fatty acids, total monounsaturated" maps to total fat as written, and to no field corrected |
| UsdaFatNames.TransField | services/apiService.js:183-196 | "fatty acids, total trans" maps to total fat as written, and to trans fat corrected |
| UsdaFatNames.FatFamilyAsWritten | services/apiService.js:170-196 | 10 g total lipid, 3 g saturated, 4 g monounsaturated and 0.5 g trans map to fat 0.5 g and nothing else |
| UsdaFatNames.FatFamilyCorrected | services/apiService.js:170-196 | with the fat entries told apart, the same list maps to fat 10 g, saturated fat 3 g and trans fat 0.5 g |
| Api.MappedFieldsHaveRules | services/apiService.js:102-125 | every mapped field is the target of some rule |
| Api.SetWhenSelected | services/apiService.js:102-125 | a field is set exactly when some nutrient maps to it |
| Api.LastWriteWins | services/apiService.js:102-125 | a field holds the value of the last nutrient that maps to it |
| Api.MapNutrients | services/apiService.js:102-125 | the mapping loop computes the specification |
| Api.Either | services/apiService.js:134 | the category is the first non-empty of the two given ones |
| Api.Normalize | services/apiService.js:127-137 | 100 g servings from "usda", sourceId the decimal fdcId, name falling back to the brand owner then "Unknown", never empty |
| Api.SearchResultOf | services/apiService.js:127-142 | one normalised record per food of the response, in order, none when the response has no foods |
| Api.SearchKeyIsNotFoodKey | services/apiService.js:152 | a search key never equals a food key, so one cache can hold both |
| Api.SearchKeyInjective | services/apiService.js:81 | different (query, page size) pairs get different search keys |
| Api.ApiService.constructor | services/apiService.js:6-16 | no request recorded and both caches empty |
| Api.ApiService.CheckRateLimit | services/apiService.js:21-39 | other APIs pass unrecorded; for "usda" the window is pruned, 60 recent requests fail, otherwise the request is recorded; the window never exceeds 60 |
| Api.ApiService.TransformFoods | services/apiService.js:127-137 | each food becomes its normalised record, in order |
| Api.ApiService.SearchUSDAFoods | services/apiService.js:80-146 | a cached search returns without a rate slot; a rate-limit error is returned unwrapped; a failed fetch is wrapped and not cached; a success is cached under its key |
| Api.ApiService.GetUSDAFoodDetails | services/apiService.js:151-218 | the same cache-then-limit order for one food, mapped with the detail rules and cached under its food key |

## Left out

- The food-log and food collections are maps held by classes; the goals collection is a sequence.
  ObjectId creation and validity, `createdAt` and `updatedAt`, and the `_id.toString()` conversions
  are not modelled. A fresh id is a parameter, and
  `AddFood` requires it to be unused.
- `new Date(...)`, `setHours` and `toISOString` in data/foodLogs.js:28-41 are left out. A new entry's
  day is given as an already normalised date string.
- The trends window, computed from the end date and the number of days
  (services/nutritionalAnalysisService.js:213-219), and the `period` string are left out.
  `Analysis.GetNutritionalTrends` takes the logs the range query returned.
- services/nutritionalAnalysisService.js:3-5 default-imports the three data modules, which have only
  named exports, so as written the service module fails to load; routes/nutritional.js:5-7 and
  routes/upload.js:4 do the same. `AnalysisTotals` and `Analysis` model the service as if it imported
  the named functions it calls.
- Analysis.GetNutritionalTrends: line 219 calls `foodLogsData.getFoodLogRange`, which
  data/foodLogs.js does not export (its range query is `getFoodLogByDateRange`, line 171). As written
  every call throws and is reported as "Failed to get nutritional trends: ...". The model takes the
  logs the range query returns, which is the evident intent; the failing call itself is not modelled.
- `getNutritionalAnalysis` (services/nutritionalAnalysisService.js:18-54) is left out. It calls a
  `getFoodLogRange` that data/foodLogs.js does not export, and gives an object-shaped `meals` to a loop
  that expects an array. Its pieces are modelled one by one.
- `searchFoods` (data/foods.js:89-111) is a regular-expression query over the catalogue and is left out.
  The recommender receives it as a function from category to an optional list of foods. A `None` result
  stands for a search that threw.
- The HTTP call of `makeRequest` (services/apiService.js:44-64), its error-message formatting and the
  axios timeout are left out. The response is an input.
- The NodeCache time-to-live is not modelled: a cached entry never expires.
- The source keeps one cache. The model keeps two maps. This is equivalent because a search key never
  equals a food key (`Api.SearchKeyIsNotFoodKey`).
- `requestsPerHour` (config/nutritionalAPIs.js:8) is not modelled, because `checkRateLimit` never reads
  it.
- A USDA food's `fdcId` is a natural number when present. A malformed response whose mapping would
  throw is not modelled.
- IEEE-754 doubles are not modelled. Numbers are exact reals and `Math.round(x)` is `Floor(x + 0.5)`.
  Results that differ only by float rounding are not captured.
- Division by a zero goal gives an infinity, and division by an object gives NaN. Both are modelled.
- `AnalysisTotals.CalculateDailyNutritionTotals` requires that every catalogue food it may look up has a
  non-zero serving size (`CatalogueReadable`). The source would divide by zero there and carry an
  infinity or NaN into the totals.
- In the aggregation, the per-nutrient `forEach` over an entry's fields is one map update
  (`Nutrients.AddScaled`), not fifteen statements. An entry whose processing would throw for a
  reason other than an unknown meal key is not modelled.
- The in-place `sort` of the recommender is modelled on a sequence by a stable insertion sort. The model
  proves sortedness and permutation, but not that `Array.prototype.sort` would choose the same order
  among equally distant foods.
- The email pattern of test/signup.py:21 is read over ASCII. Unicode `\w` and `$` matching before a
  trailing newline are left out.
- `toLowerCase` maps ASCII letters only; other letters are kept as they are. `trim` removes the white
  space and line terminators listed in `Text.IsSpace`.
- Strings are sequences of Unicode scalar values, so a string holding an unpaired surrogate cannot be
  written. `length` counts the surrogate pair of a character outside the Basic Multilingual Plane as
  two (`Text.Utf16Length`).
- AnalysisTotals.BucketOf: a meal key naming an `Object.prototype` member ("constructor", ...) is
  not modelled. In the source such a key finds the inherited member, the writes onto it do not
  throw, and the entry would count in full in the day. Stored logs carry only the four meal keys of
  data/foodLogs.js, so only hand-made logs reach that case.
- `imageUrl` (data/foods.js:59, data/foodLogs.js:76) is not modelled. The source never validates it
  and no computation reads it.
- Numeric fields are typed as numbers throughout. The source does not check them on every path: the
  goals `$set` update, the `quantity` and `nutrients` of a food-log entry update (data/foodLogs.js:221)
  and the `nutrients.x || 0` defaults of `addFood` (data/foods.js:42-55) keep a string or an object as
  given. The string concatenation and NaN results such a value would cause later are not represented.
  Numeric.Divide likewise takes a string divisor as NaN, where JavaScript would convert a numeric
  string such as "150" to 150; only a string-valued `grams` written by such an update could reach it.
- Three iterating calls are functions over values, not loops: the per-field rounding `forEach` passes
  (data/foodLogs.js:161-163, services/nutritionalAnalysisService.js:124-132,
  services/nutritionalCalculationService.js:243) are the map comprehension `Nutrients.RoundAll`; the
  rate-limit `filter` (services/apiService.js:28-31) is `Api.Recent`; the trend `reduce`
  (services/nutritionalAnalysisService.js:242-249) is `Analysis.Sum`. The rounding passes update a
  local totals object in place and the other two build new arrays or numbers; none of these is shared,
  so only the loop form itself is not captured.
- Non-number inputs to the calculator functions are out of scope: their parameters are numbers, and
  the distribution is a record of optional numbers.
- `Calculation.CalculateDailyTotals` takes each meal's `foods` list as given. It does not model the
  `forEach` throwing on an object-shaped `meals`, because that path is only reached from the glue left
  out above.
- Goals.Merge: an update is a set of top-level fields, the user id among them. Dotted `$set` paths
  such as "macronutrients.protein.grams" (which change the grams without recomputing the calories),
  fields the record does not have, `_id`, and user ids that are not strings are not modelled.
- Foods.ApplyPatch: likewise, an update replaces whole top-level fields; dotted `$set` paths and new
  fields are not modelled.
- `updateNutritionalGoals` fails with "Could not update nutritional goals" when nothing was modified.
  Every update sets a new `updatedAt`, so that failure is not reachable and is not modelled.
- `updateNutritionalGoals` writes its recomputed calories into the caller's `updateData` object, which
  `updateObj` shares. `Goals.Merge` states the resulting record only; the aliasing itself is not
  observable here.
- `Signup.UserDatabase.RegisterUser` returns errors as values. The source raises `ValueError`.

## Findings

| source | as written | input that shows it | evidently intended | confidence | as-written member | corrected member |
|---|---|---|---|---|---|---|
| services/nutritionalAnalysisService.js:80-85, 97-103 | the aggregation knows the buckets breakfast, lunch, dinner and "snack", but the food-log store files snacks under "snacks" (data/foodLogs.js:55); every snack entry throws after adding its calories, so it adds calories to the day and nothing else | a day whose only entry is a snack with 100 kcal and 10 g protein: the day shows 100 kcal, 0 g protein and an empty snack bucket | snack entries count in full, in the day and in the snack bucket | not executed | AnalysisTotals.StoreSnacksLoseProtein | AnalysisTotals.CorrectedSnacksKeepProtein |
| services/apiService.js:176-196 | in the details chain the fat rule ("total lipid" or "fat") comes before the saturated and trans rules, and every FoodData Central fatty-acid name contains "fat", so each fatty-acid entry overwrites `fat` and `saturatedFat` and `transFat` are never set; the search mapping (lines 105-123) overwrites `fat` the same way | 10 g "total lipid (fat)", 3 g "fatty acids, total saturated", 4 g "fatty acids, total monounsaturated", 0.5 g "fatty acids, total trans" (the names as the mapping lower-cases them): the record has fat 0.5 g and no saturated or trans fat | total fat from the lipid entry, saturated and trans fat in their own fields | not executed | UsdaFatNames.FatFamilyAsWritten | UsdaFatNames.FatFamilyCorrected |
| services/nutritionalAnalysisService.js:170-172, 361-363 | macro percentages divide the day's grams by `goals.macronutrients.protein` (and carbohydrates, fat), which the goals store holds as an object `{grams, calories}`, so every percentage is NaN | any goals record made by `createNutritionalGoals`: no protein, carbohydrate or fat tip is ever given, and the overall score is NaN, graded F | divide by the macro goal's `grams` | not executed | Analysis.AsWrittenNoMacroTips, Analysis.AsWrittenScoreIsF | Analysis.CorrectedProteinTip, Analysis.FullMarks |
