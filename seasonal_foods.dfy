/**
 * Seasonal food lookup: which hemisphere a region is in, which season a month
 * falls in there, the foods the database lists for that season, whether an
 * ingredient is at its peak, and a recipe's seasonality score.
 *
 * The date is passed in as its zero-based month index (`date.getMonth()`).
 */
module SeasonalFoods {
  import opened Wrappers
  import opened Text
  import opened Sequences
  import opened Recipes

  datatype Hemisphere = Northern | Southern
  datatype Season = Spring | Summer | Fall | Winter

  /** One database entry; `carbonFootprint` is the label the database stores. */
  datatype Food = Food(name: string, peakMonths: seq<int>, carbonFootprint: string, savingsVsOffSeason: int)

  const NorthernRegions: seq<string> :=
    ["US", "CA", "MX", "EU", "UK", "ES", "FR", "DE", "IT", "CN", "JP", "KR", "IN", "SA"]
  const SouthernRegions: seq<string> := ["AU", "NZ", "BR", "AR", "ZA"]

  /** `getHemisphere`: the listed southern regions are southern, every other region northern. */
  function GetHemisphere(region: string): (h: Hemisphere)
    ensures h == Southern <==> region in SouthernRegions
  {
    if region in NorthernRegions then Northern
    else if region in SouthernRegions then Southern
    else Northern
  }

  /** `getSeason`: three months per season; a month outside 1..12 falls back to spring. */
  function GetSeason(month: int, h: Hemisphere): (s: Season)
    ensures !(1 <= month <= 12) ==> s == Spring
  {
    if h == Northern then
      if month in {3, 4, 5} then Spring
      else if month in {6, 7, 8} then Summer
      else if month in {9, 10, 11} then Fall
      else if month in {12, 1, 2} then Winter
      else Spring
    else
      if month in {9, 10, 11} then Spring
      else if month in {12, 1, 2} then Summer
      else if month in {3, 4, 5} then Fall
      else if month in {6, 7, 8} then Winter
      else Spring
  }

  /** The month six months after `month`, on the 1..12 calendar. */
  function SixMonthsOn(month: int): int
  {
    (month + 5) % 12 + 1
  }

  /** The southern calendar is the northern one shifted by six months. */
  lemma SouthernSeasonIsShifted(month: int)
    requires 1 <= month <= 12
    ensures GetSeason(month, Southern) == GetSeason(SixMonthsOn(month), Northern)
    ensures 1 <= SixMonthsOn(month) <= 12 && SixMonthsOn(SixMonthsOn(month)) == month
  {
  }

  /** Each season is exactly three consecutive months, in both hemispheres. */
  lemma SeasonsAreThreeMonths(month: int, h: Hemisphere)
    requires 1 <= month <= 12
    ensures var first := if GetSeason(month, h) == Spring then (if h == Northern then 3 else 9)
                         else if GetSeason(month, h) == Summer then (if h == Northern then 6 else 12)
                         else if GetSeason(month, h) == Fall then (if h == Northern then 9 else 3)
                         else (if h == Northern then 12 else 6);
      (month - first) % 12 < 3
  {
  }

  /** The food database, indexed by hemisphere and season: vegetables first, then fruits. */
  function Vegetables(h: Hemisphere, s: Season): seq<Food>
  {
    match (h, s)
    case (Northern, Spring) => [
      Food("Asparagus", [4, 5], "low", 45), Food("Peas", [4, 5], "low", 40),
      Food("Spinach", [3, 4, 5], "low", 35), Food("Lettuce", [3, 4, 5], "low", 30),
      Food("Radishes", [3, 4, 5], "low", 35)]
    case (Northern, Summer) => [
      Food("Tomatoes", [7, 8], "low", 40), Food("Cucumbers", [6, 7, 8], "low", 35),
      Food("Zucchini", [6, 7, 8], "low", 30), Food("Bell Peppers", [7, 8], "low", 45),
      Food("Corn", [7, 8], "low", 50), Food("Green Beans", [6, 7, 8], "low", 30),
      Food("Eggplant", [7, 8], "low", 35)]
    case (Northern, Fall) => [
      Food("Pumpkin", [9, 10, 11], "low", 70), Food("Butternut Squash", [9, 10, 11], "low", 60),
      Food("Brussels Sprouts", [10, 11], "low", 40), Food("Cauliflower", [9, 10, 11], "low", 35),
      Food("Broccoli", [9, 10, 11], "low", 30), Food("Sweet Potatoes", [9, 10, 11], "low", 50)]
    case (Northern, Winter) => [
      Food("Cabbage", [12, 1, 2], "low", 40), Food("Carrots", [12, 1, 2], "low", 30),
      Food("Kale", [12, 1, 2], "low", 35), Food("Leeks", [12, 1, 2], "low", 30)]
    case (Southern, Spring) => [
      Food("Asparagus", [9, 10, 11], "low", 45), Food("Peas", [10, 11], "low", 40)]
    case (Southern, Summer) => [
      Food("Tomatoes", [1, 2], "low", 40), Food("Corn", [1, 2], "low", 50)]
    case (Southern, Fall) => [Food("Pumpkin", [3, 4, 5], "low", 70)]
    case (Southern, Winter) => [
      Food("Cabbage", [6, 7, 8], "low", 40), Food("Broccoli", [6, 7, 8], "low", 30)]
  }

  function Fruits(h: Hemisphere, s: Season): seq<Food>
  {
    match (h, s)
    case (Northern, Spring) => [
      Food("Strawberries", [4, 5], "low", 50), Food("Apricots", [5], "low", 45),
      Food("Cherries", [5, 6], "low", 55)]
    case (Northern, Summer) => [
      Food("Watermelon", [7, 8], "low", 60), Food("Peaches", [7, 8], "low", 40),
      Food("Blueberries", [6, 7], "low", 50), Food("Raspberries", [6, 7], "low", 55),
      Food("Plums", [7, 8], "low", 40)]
    case (Northern, Fall) => [
      Food("Apples", [9, 10, 11], "low", 45), Food("Pears", [9, 10], "low", 40),
      Food("Grapes", [9, 10], "low", 50), Food("Cranberries", [10, 11], "low", 60)]
    case (Northern, Winter) => [
      Food("Oranges", [12, 1, 2], "low", 50), Food("Grapefruit", [12, 1, 2], "low", 45),
      Food("Clementines", [12, 1], "low", 40)]
    case (Southern, Spring) => [Food("Strawberries", [10, 11], "low", 50)]
    case (Southern, Summer) => [
      Food("Mango", [12, 1, 2], "low", 60), Food("Watermelon", [1, 2], "low", 60)]
    case (Southern, Fall) => [Food("Apples", [3, 4, 5], "low", 45)]
    case (Southern, Winter) => [Food("Oranges", [6, 7, 8], "low", 50)]
  }

  /** The result of `getSeasonalFoods`. */
  datatype SeasonalFoodsResult = SeasonalFoodsResult(vegetables: seq<Food>, fruits: seq<Food>, season: Season, month: int)

  /** `getSeasonalFoods`: the database entry for the region's hemisphere and the date's season. */
  function GetSeasonalFoods(region: string, monthIndex: int): (r: SeasonalFoodsResult)
    ensures r.month == monthIndex + 1
    ensures r.season == GetSeason(monthIndex + 1, GetHemisphere(region))
    ensures r.vegetables == Vegetables(GetHemisphere(region), r.season)
    ensures r.fruits == Fruits(GetHemisphere(region), r.season)
  {
    var month := monthIndex + 1;
    var h := GetHemisphere(region);
    var season := GetSeason(month, h);
    SeasonalFoodsResult(Vegetables(h, season), Fruits(h, season), season, month)
  }

  /** The match `isInSeason` and `calculateSeasonalityScore` use: equal names, or the name contains the food's. */
  predicate NameMatches(food: Food, name: string)
  {
    ToLower(food.name) == ToLower(name) || Includes(ToLower(name), ToLower(food.name))
  }

  /** The equality test is subsumed: a name matches exactly when it contains the food's name. */
  lemma NameMatchIsContainment(food: Food, name: string)
    ensures NameMatches(food, name) <==> Includes(ToLower(name), ToLower(food.name))
  {
    IncludesSelf(ToLower(name));
  }

  /** `allFoods.find(...)`: the first food whose name matches. */
  function FindFood(foods: seq<Food>, name: string): (r: Option<Food>)
    ensures r.None? <==> forall f :: f in foods ==> !NameMatches(f, name)
    ensures r.Some? ==> exists i :: 0 <= i < |foods| && foods[i] == r.value && NameMatches(r.value, name) &&
                                     forall j :: 0 <= j < i ==> !NameMatches(foods[j], name)
    decreases |foods|
  {
    if foods == [] then None
    else if NameMatches(foods[0], name) then Some(foods[0])
    else
      var r := FindFood(foods[1..], name);
      assert forall f :: f in foods <==> f == foods[0] || f in foods[1..];
      if r.Some? then
        var i :| 0 <= i < |foods[1..]| && foods[1..][i] == r.value && NameMatches(r.value, name) &&
                 forall j :: 0 <= j < i ==> !NameMatches(foods[1..][j], name);
        assert foods[i + 1] == r.value;
        assert forall j :: 0 <= j < i + 1 ==> !NameMatches(foods[j], name) by {
          forall j | 0 <= j < i + 1 ensures !NameMatches(foods[j], name) {
            if j > 0 {
              assert foods[j] == foods[1..][j - 1];
            }
          }
        }
        r
      else r
  }

  /** The result of `isInSeason`; the footprint is present only for an in-season food. */
  datatype SeasonCheck = SeasonCheck(inSeason: bool, savings: int, carbonFootprint: Option<string>)

  /**
   * `isInSeason`: in season exactly when the first matching food of the season's
   * list peaks this month; then its savings and footprint are reported.
   */
  function IsInSeason(ingredientName: string, region: string, monthIndex: int): (r: SeasonCheck)
    ensures var foods := GetSeasonalFoods(region, monthIndex);
      var found := FindFood(foods.vegetables + foods.fruits, ingredientName);
      && (r.inSeason <==> found.Some? && monthIndex + 1 in found.value.peakMonths)
      && (r.inSeason ==> r.savings == found.value.savingsVsOffSeason
                          && r.carbonFootprint == Some(found.value.carbonFootprint))
    ensures !r.inSeason ==> r == SeasonCheck(false, 0, None)
  {
    var foods := GetSeasonalFoods(region, monthIndex);
    var month := monthIndex + 1;
    var food := FindFood(foods.vegetables + foods.fruits, ingredientName);
    if food.Some? && month in food.value.peakMonths then
      SeasonCheck(true, food.value.savingsVsOffSeason, Some(food.value.carbonFootprint))
    else SeasonCheck(false, 0, None)
  }

  /** An in-season answer names a food of the season's list that matches and peaks this month. */
  lemma InSeasonHasWitness(ingredientName: string, region: string, monthIndex: int)
    requires IsInSeason(ingredientName, region, monthIndex).inSeason
    ensures exists f :: f in GetSeasonalFoods(region, monthIndex).vegetables + GetSeasonalFoods(region, monthIndex).fruits
                        && NameMatches(f, ingredientName) && monthIndex + 1 in f.peakMonths
                        && IsInSeason(ingredientName, region, monthIndex).savings == f.savingsVsOffSeason
  {
    var foods := GetSeasonalFoods(region, monthIndex);
    var all := foods.vegetables + foods.fruits;
    var f := FindFood(all, ingredientName).value;
    var i :| 0 <= i < |all| && all[i] == f && NameMatches(f, ingredientName) &&
             forall j :: 0 <= j < i ==> !NameMatches(all[j], ingredientName);
  }

  /**
   * Asparagus in the United States: listed for spring, but in season only in its
   * peak months, so April counts (45% cheaper) and March does not.
   */
  lemma AsparagusPeaksInApril()
    ensures IsInSeason("asparagus", "US", 3) == SeasonCheck(true, 45, Some("low"))
    ensures IsInSeason("asparagus", "US", 2) == SeasonCheck(false, 0, None)
  {
    assert ToLower("asparagus") == "asparagus";
    assert ToLower("Asparagus") == "asparagus";
  }

  /** A food whose name has, at index `j`, a letter that "cherries" lacks does not match "cherries". */
  lemma NotCherries(food: Food, j: nat)
    requires j < |food.name| && LowerChar(food.name[j]) !in "cherries"
    ensures !NameMatches(food, "cherries")
  {
    assert ToLower("cherries") == "cherries";
    NameMatchIsContainment(food, "cherries");
    ForeignCharNotIncluded("cherries", ToLower(food.name), j);
  }

  /** Of the northern spring vegetables, none matches "cherries". */
  lemma NoSpringVegetableIsCherries()
    ensures forall f :: f in Vegetables(Northern, Spring) ==> !NameMatches(f, "cherries")
  {
    forall f | f in Vegetables(Northern, Spring) ensures !NameMatches(f, "cherries") {
      var j := if f.name in ["Spinach", "Radishes"] then 1 else 0;
      NotCherries(f, j);
    }
  }

  /** Of the northern spring fruits, only Cherries matches "cherries". */
  lemma OnlyCherriesMatchInSpring()
    ensures forall f :: f in Fruits(Northern, Spring) && NameMatches(f, "cherries") ==>
                          f == Food("Cherries", [5, 6], "low", 55)
  {
    forall f | f in Fruits(Northern, Spring) && f.name != "Cherries" ensures !NameMatches(f, "cherries") {
      var j := if f.name == "Strawberries" then 1 else 0;
      NotCherries(f, j);
    }
  }

  /** Searching the northern spring lists for "cherries" finds the Cherries entry. */
  lemma SpringSearchFindsCherries()
    ensures FindFood(Vegetables(Northern, Spring) + Fruits(Northern, Spring), "cherries") ==
            Some(Food("Cherries", [5, 6], "low", 55))
  {
    NoSpringVegetableIsCherries();
    OnlyCherriesMatchInSpring();
    var cherries := Food("Cherries", [5, 6], "low", 55);
    var all := Vegetables(Northern, Spring) + Fruits(Northern, Spring);
    assert cherries in Fruits(Northern, Spring);
    assert NameMatches(cherries, "cherries") by {
      assert ToLower("cherries") == "cherries" == ToLower("Cherries");
    }
    assert forall f :: f in all ==> f in Vegetables(Northern, Spring) || f in Fruits(Northern, Spring);
    FindOnlyMatch(all, "cherries", cherries);
  }

  /** In May, cherries are in season in the United States: the spring lists find them. */
  lemma CherriesInSeasonInMay()
    ensures Food("Cherries", [5, 6], "low", 55) in Fruits(Northern, Spring)
    ensures IsInSeason("cherries", "US", 4) == SeasonCheck(true, 55, Some("low"))
  {
    SpringSearchFindsCherries();
  }

  /** A food that is the only match in a list is the one the search finds. */
  lemma FindOnlyMatch(foods: seq<Food>, name: string, food: Food)
    requires food in foods && NameMatches(food, name)
    requires forall f :: f in foods && NameMatches(f, name) ==> f == food
    ensures FindFood(foods, name) == Some(food)
  {
  }

  /** No vegetable of the northern summer matches "cherries". */
  lemma NoSummerVegetableIsCherries()
    ensures forall f :: f in Vegetables(Northern, Summer) ==> !NameMatches(f, "cherries")
  {
    forall f | f in Vegetables(Northern, Summer) ensures !NameMatches(f, "cherries") {
      var j := if f.name[0] in "CE" then 1 else 0;
      NotCherries(f, j);
    }
  }

  /** No fruit of the northern summer matches "cherries". */
  lemma NoSummerFruitIsCherries()
    ensures forall f :: f in Fruits(Northern, Summer) ==> !NameMatches(f, "cherries")
  {
    forall f | f in Fruits(Northern, Summer) ensures !NameMatches(f, "cherries") {
      var j := if f.name == "Raspberries" then 1 else 0;
      NotCherries(f, j);
    }
  }

  /**
   * The table lists cherries for the northern spring with peak months May and June,
   * but June is summer, whose lists hold no cherries: in June, a month the table
   * gives as a peak month, the check answers "not in season".
   */
  lemma CherriesOutOfSeasonInJune()
    ensures 6 in Food("Cherries", [5, 6], "low", 55).peakMonths && GetSeason(6, Northern) == Summer
    ensures IsInSeason("cherries", "US", 5) == SeasonCheck(false, 0, None)
  {
    NoSummerVegetableIsCherries();
    NoSummerFruitIsCherries();
    var all := Vegetables(Northern, Summer) + Fruits(Northern, Summer);
    assert forall f :: f in all ==> f in Vegetables(Northern, Summer) || f in Fruits(Northern, Summer);
    assert FindFood(all, "cherries").None?;
  }

  /** `allSeasonalFoods.some(...)` for one recipe ingredient; an ingredient without a name never matches. */
  predicate IsSeasonalIngredient(ing: Ingredient, foods: seq<Food>)
  {
    ing.name.Some? && exists f :: f in foods && NameMatches(f, ing.name.value)
  }

  /** `recipe.ingredients.filter(...)`: the seasonal ingredients, in recipe order. */
  function SeasonalIngredients(ingredients: seq<Ingredient>, foods: seq<Food>): (matched: seq<Ingredient>)
    ensures IsSubsequence(matched, ingredients)
    ensures forall x :: x in matched <==> x in ingredients && IsSeasonalIngredient(x, foods)
    ensures forall x :: multiset(matched)[x] == if IsSeasonalIngredient(x, foods) then multiset(ingredients)[x] else 0
    decreases |ingredients|
  {
    if ingredients == [] then []
    else
      var rest := SeasonalIngredients(ingredients[1..], foods);
      assert forall x :: x in ingredients <==> x == ingredients[0] || x in ingredients[1..];
      assert ingredients == [ingredients[0]] + ingredients[1..];
      if IsSeasonalIngredient(ingredients[0], foods) then
        assert ([ingredients[0]] + rest)[1..] == rest;
        [ingredients[0]] + rest
      else rest
  }

  /** `.map(i => i.name)` over named ingredients. */
  function Names(ingredients: seq<Ingredient>): (names: seq<string>)
    ensures |names| == |ingredients|
    ensures forall i :: 0 <= i < |ingredients| && ingredients[i].name.Some? ==> names[i] == ingredients[i].name.value
  {
    seq(|ingredients|, i requires 0 <= i < |ingredients| =>
      if ingredients[i].name.Some? then ingredients[i].name.value else "")
  }

  /**
   * `Math.round(k / n * 100)` in exact arithmetic: the nearest whole percentage,
   * halves rounded up.
   */
  function RoundedPercent(k: nat, n: nat): (score: int)
    requires 0 < n && k <= n
    ensures 0 <= score <= 100
    ensures 2 * n * score <= 200 * k + n < 2 * n * (score + 1)
  {
    var score := (200 * k + n) / (2 * n);
    assert 0 <= 200 * k + n <= 201 * n < 2 * n * 101;
    DivisionBounds(200 * k + n, 2 * n, 101);
    score
  }

  /** The quotient of a non-negative number below `d * bound` is below `bound`. */
  lemma DivisionBounds(x: nat, d: nat, bound: nat)
    requires d > 0 && x < d * bound
    ensures 0 <= x / d < bound
    ensures d * (x / d) <= x < d * (x / d + 1)
  {
  }

  datatype Badge = HighlySeasonal | Seasonal

  /** The badge, decided on the unrounded percentage `100 * k / n`. */
  function SeasonalBadge(k: nat, n: nat): (b: Option<Badge>)
    requires 0 < n
    ensures b == Some(HighlySeasonal) <==> 100 * k >= 70 * n
    ensures b == Some(Seasonal) <==> 40 * n <= 100 * k < 70 * n
    ensures b == None <==> 100 * k < 40 * n
  {
    if 100 * k >= 70 * n then Some(HighlySeasonal)
    else if 100 * k >= 40 * n then Some(Seasonal)
    else None
  }

  /** The result of `calculateSeasonalityScore`; the badge is absent for an empty recipe. */
  datatype Seasonality = Seasonality(score: int, seasonalIngredients: seq<string>, totalIngredients: nat, badge: Option<Badge>)

  /** `calculateSeasonalityScore` against the season of month `monthIndex`. */
  function CalculateSeasonalityScore(recipe: Recipe, region: string, monthIndex: int): (r: Seasonality)
    ensures recipe.ingredients.None? || recipe.ingredients.value == [] ==> r == Seasonality(0, [], 0, None)
    ensures 0 <= r.score <= 100
    ensures recipe.ingredients.Some? ==> r.totalIngredients == |recipe.ingredients.value|
    ensures |r.seasonalIngredients| <= r.totalIngredients
    ensures recipe.ingredients.Some? && recipe.ingredients.value != [] ==>
      var foods := GetSeasonalFoods(region, monthIndex);
      var matched := SeasonalIngredients(recipe.ingredients.value, foods.vegetables + foods.fruits);
      && IsSubsequence(matched, recipe.ingredients.value)
      && r.seasonalIngredients == Names(matched)
      && 2 * r.totalIngredients * r.score <= 200 * |matched| + r.totalIngredients < 2 * r.totalIngredients * (r.score + 1)
      && r.badge == SeasonalBadge(|matched|, r.totalIngredients)
  {
    if recipe.ingredients.None? || recipe.ingredients.value == [] then Seasonality(0, [], 0, None)
    else
      var ingredients := recipe.ingredients.value;
      var foods := GetSeasonalFoods(region, monthIndex);
      var matched := SeasonalIngredients(ingredients, foods.vegetables + foods.fruits);
      Summary(|matched|, |ingredients|, Names(matched))
  }

  /** The result for `k` seasonal ingredients, listed by `names`, out of `n`. */
  function Summary(k: nat, n: nat, names: seq<string>): (r: Seasonality)
    requires 0 < n && k <= n && |names| == k
    ensures 0 <= r.score <= 100 && r.totalIngredients == n && r.seasonalIngredients == names
    ensures 2 * n * r.score <= 200 * k + n < 2 * n * (r.score + 1)
    ensures r.badge == SeasonalBadge(k, n)
  {
    Seasonality(RoundedPercent(k, n), names, n, SeasonalBadge(k, n))
  }

  /** A "Highly Seasonal" badge comes with a score of at least 70, a "Seasonal" one with 40 to 70. */
  lemma BadgeAgreesWithScore(recipe: Recipe, region: string, monthIndex: int)
    ensures var r := CalculateSeasonalityScore(recipe, region, monthIndex);
      && (r.badge == Some(HighlySeasonal) ==> r.score >= 70)
      && (r.badge == Some(Seasonal) ==> 40 <= r.score <= 70)
      && (r.badge.None? ==> r.score <= 40)
  {
    var r := CalculateSeasonalityScore(recipe, region, monthIndex);
    if recipe.ingredients.Some? && recipe.ingredients.value != [] {
      var foods := GetSeasonalFoods(region, monthIndex);
      var k := |SeasonalIngredients(recipe.ingredients.value, foods.vegetables + foods.fruits)|;
      var n := r.totalIngredients;
      RoundingKeepsThresholds(k, n, r.score);
    }
  }

  /** If `score` is `100 * k / n` rounded half up, it is on the same side of 40 and 70 as the exact value, up to the boundary. */
  lemma RoundingKeepsThresholds(k: nat, n: nat, score: int)
    requires 0 < n && 2 * n * score <= 200 * k + n < 2 * n * (score + 1)
    ensures 100 * k >= 70 * n ==> score >= 70
    ensures 100 * k < 70 * n ==> score <= 70
    ensures 100 * k >= 40 * n ==> score >= 40
    ensures 100 * k < 40 * n ==> score <= 40
  {
    if score <= 69 {
      ScaleMonotone(2 * n, score + 1, 70);
    }
    if score >= 71 {
      ScaleMonotone(2 * n, 71, score);
    }
    if score <= 39 {
      ScaleMonotone(2 * n, score + 1, 40);
    }
    if score >= 41 {
      ScaleMonotone(2 * n, 41, score);
    }
  }

  lemma ScaleMonotone(c: nat, a: int, b: int)
    requires a <= b
    ensures c * a <= c * b
  {
  }

  /**
   * The badge reads the unrounded percentage, so a displayed score of 70 can carry
   * the lower badge: 16 seasonal ingredients out of 23 is 69.6%, shown as 70.
   */
  lemma SeventyCanBeMerelySeasonal()
    ensures RoundedPercent(16, 23) == 70 && SeasonalBadge(16, 23) == Some(Seasonal)
  {
  }
}
