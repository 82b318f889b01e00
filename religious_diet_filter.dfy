/**
 * Religious diet filters over recipe lists.
 *
 * Every filter in the service is a chain of `Array.prototype.filter` calls, each
 * with one predicate. The model names each predicate as a `Rule`, defines one
 * `.filter` call as `Filter`, and the conjunction of a list of rules as
 * `FilterBy`. Each `apply*Filters` function is written as the same chain of
 * `Filter` calls as the service, and is then proved equal to a single
 * `FilterBy` over the rules it used. Order preservation, idempotence and
 * completeness all follow from that.
 *
 * A settings object that is missing behaves, under `?.`, exactly like one whose
 * fields are all missing, so each settings record here is always present and
 * its fields carry the absence.
 */
module ReligiousDietFilter {
  import opened Wrappers
  import opened Text
  import opened Sequences
  import opened Recipes

  datatype HalalSettings = HalalSettings(certificationRequired: Option<string>)
  datatype KosherSettings = KosherSettings(separateMeatDairy: bool, observanceLevel: Option<string>)
  datatype HinduSettings = HinduSettings(dietaryPractice: Option<string>, avoidBeef: bool, avoidOnionGarlic: bool)
  datatype BuddhistSettings = BuddhistSettings(dietaryPractice: Option<string>, avoidFivePungent: bool)
  datatype JainSettings = JainSettings(avoidRootVegetables: bool)

  /** The user's religious diet: the religion and one settings record per religion. */
  datatype ReligiousDiet = ReligiousDiet(
    religion: string,
    halal: HalalSettings,
    kosher: KosherSettings,
    hindu: HinduSettings,
    buddhist: BuddhistSettings,
    jain: JainSettings)

  // Word and category lists, in the order the service lists them.
  const HalalForbidden: seq<string> :=
    ["pork", "ham", "bacon", "sausage", "pepperoni", "lard", "gelatin", "alcohol", "wine", "beer", "rum", "vodka"]
  const HalalMeats: seq<string> := ["chicken", "beef", "lamb", "turkey", "meat"]
  const KosherForbidden: seq<string> :=
    ["pork", "ham", "bacon", "shellfish", "shrimp", "lobster", "crab", "oysters", "clams", "squid"]
  const KosherMeats: seq<string> := ["beef", "chicken", "lamb", "meat"]
  const KosherDairy: seq<string> := ["milk", "cheese", "butter", "cream", "yogurt"]
  const BeefAndVeal: seq<string> := ["beef", "veal"]
  const OnionFamily: seq<string> := ["onion", "garlic", "shallot", "leek", "chive"]
  const FivePungent: seq<string> := ["onion", "garlic", "shallot", "chive", "leek"]
  const RootVegetables: seq<string> :=
    ["potato", "sweet potato", "carrot", "beet", "turnip", "radish", "ginger", "turmeric"]
  const VegetarianTypes: seq<string> := ["meat", "fish", "eggs"]
  const LactoOvoTypes: seq<string> := ["meat", "fish"]
  const VeganTypes: seq<string> := ["meat", "fish", "dairy", "eggs", "honey"]
  const MeatTypes: seq<string> := ["meat"]

  /** `ing.name?.toLowerCase().includes(w)` for some `w` in `words`; a missing name includes nothing. */
  predicate NameIncludesAny(ing: Ingredient, words: seq<string>)
  {
    ing.name.Some? && IncludesAny(ToLower(ing.name.value), words)
  }

  /** `hasIngredient`: some ingredient's lower-cased name contains one of `words`. */
  predicate HasIngredient(recipe: Recipe, words: seq<string>)
  {
    recipe.ingredients.Some? && exists ing :: ing in recipe.ingredients.value && NameIncludesAny(ing, words)
  }

  /** `hasIngredientType`: some ingredient's lower-cased category is one of `types`. */
  predicate HasIngredientType(recipe: Recipe, types: seq<string>)
  {
    recipe.ingredients.Some? &&
    exists ing :: ing in recipe.ingredients.value && ing.category.Some? && ToLower(ing.category.value) in types
  }

  /** A recipe without an ingredient list is never flagged by either helper. */
  lemma NoIngredientsNeverFlagged(recipe: Recipe, words: seq<string>, types: seq<string>)
    requires recipe.ingredients.None?
    ensures !HasIngredient(recipe, words) && !HasIngredientType(recipe, types)
  {
  }

  /** The halal predicate: forbidden words, then strict certification, then certified-or-vegetarian meat. */
  predicate KeepsHalal(recipe: Recipe, settings: HalalSettings)
  {
    if HasIngredient(recipe, HalalForbidden) then false
    else if settings.certificationRequired == Some("strict") then Lists(recipe.certifications, "halal")
    else if HasIngredient(recipe, HalalMeats) && settings.certificationRequired == Some("preferred") then
      Lists(recipe.certifications, "halal") || Lists(recipe.tags, "vegetarian")
    else true
  }

  /** The kosher predicate: forbidden words, then meat with dairy, then strict certification. */
  predicate KeepsKosher(recipe: Recipe, settings: KosherSettings)
  {
    if HasIngredient(recipe, KosherForbidden) then false
    else if settings.separateMeatDairy && HasIngredient(recipe, KosherMeats) && HasIngredient(recipe, KosherDairy) then false
    else if settings.observanceLevel == Some("strict") then Lists(recipe.certifications, "kosher")
    else true
  }

  /** The predicate of one `.filter` call. */
  datatype Rule =
    | Without(words: seq<string>)
    | WithoutType(types: seq<string>)
    | Halal(halal: HalalSettings)
    | Kosher(kosher: KosherSettings)

  predicate Keeps(rule: Rule, recipe: Recipe)
  {
    match rule
    case Without(words) => !HasIngredient(recipe, words)
    case WithoutType(types) => !HasIngredientType(recipe, types)
    case Halal(settings) => KeepsHalal(recipe, settings)
    case Kosher(settings) => KeepsKosher(recipe, settings)
  }

  predicate KeepsAll(rules: seq<Rule>, recipe: Recipe)
  {
    forall i :: 0 <= i < |rules| ==> Keeps(rules[i], recipe)
  }

  /** One `recipes.filter(rule)` call: the recipes the rule keeps, in their original order. */
  function Filter(recipes: seq<Recipe>, rule: Rule): (kept: seq<Recipe>)
    ensures IsSubsequence(kept, recipes)
    ensures forall r :: r in kept <==> r in recipes && Keeps(rule, r)
    ensures forall r :: multiset(kept)[r] == if Keeps(rule, r) then multiset(recipes)[r] else 0
    decreases |recipes|
  {
    if recipes == [] then []
    else
      var rest := Filter(recipes[1..], rule);
      assert forall r :: r in recipes <==> r == recipes[0] || r in recipes[1..];
      assert recipes == [recipes[0]] + recipes[1..];
      if Keeps(rule, recipes[0]) then
        assert ([recipes[0]] + rest)[1..] == rest;
        [recipes[0]] + rest
      else rest
  }

  /** The recipes that every rule in `rules` keeps, in their original order. */
  function FilterBy(recipes: seq<Recipe>, rules: seq<Rule>): (kept: seq<Recipe>)
    ensures IsSubsequence(kept, recipes)
    ensures forall r :: r in kept <==> r in recipes && KeepsAll(rules, r)
    ensures forall r :: multiset(kept)[r] == if KeepsAll(rules, r) then multiset(recipes)[r] else 0
    decreases |recipes|
  {
    if recipes == [] then []
    else
      var rest := FilterBy(recipes[1..], rules);
      assert forall r :: r in recipes <==> r == recipes[0] || r in recipes[1..];
      assert recipes == [recipes[0]] + recipes[1..];
      if KeepsAll(rules, recipes[0]) then
        assert ([recipes[0]] + rest)[1..] == rest;
        [recipes[0]] + rest
      else rest
  }

  /** Two `.filter` calls in a row still leave an order-preserving sub-list of the input. */
  lemma ChainedFiltersKeepOrder(recipes: seq<Recipe>, first: Rule, second: Rule)
    ensures IsSubsequence(Filter(Filter(recipes, first), second), recipes)
  {
    SubsequenceTransitive(Filter(Filter(recipes, first), second), Filter(recipes, first), recipes);
  }

  /** With no rules, nothing is removed. */
  lemma {:induction false} FilterByNoRules(recipes: seq<Recipe>)
    ensures FilterBy(recipes, []) == recipes
    decreases |recipes|
  {
    if recipes != [] {
      FilterByNoRules(recipes[1..]);
    }
  }

  /** One more `.filter` after a `FilterBy` is a `FilterBy` with that rule appended. */
  lemma {:induction false} FilterAfterFilterBy(recipes: seq<Recipe>, rules: seq<Rule>, rule: Rule)
    ensures Filter(FilterBy(recipes, rules), rule) == FilterBy(recipes, rules + [rule])
    decreases |recipes|
  {
    if recipes != [] {
      FilterAfterFilterBy(recipes[1..], rules, rule);
      var x := recipes[0];
      assert KeepsAll(rules + [rule], x) <==> KeepsAll(rules, x) && Keeps(rule, x) by {
        assert forall i :: 0 <= i < |rules| ==> (rules + [rule])[i] == rules[i];
        assert (rules + [rule])[|rules|] == rule;
      }
      if KeepsAll(rules, x) {
        var rest := FilterBy(recipes[1..], rules);
        assert ([x] + rest)[0] == x && ([x] + rest)[1..] == rest;
      }
    }
  }

  /** Filtering an already filtered list by the same rules removes nothing more. */
  lemma {:induction false} FilterByIdempotent(recipes: seq<Recipe>, rules: seq<Rule>)
    ensures FilterBy(FilterBy(recipes, rules), rules) == FilterBy(recipes, rules)
    decreases |recipes|
  {
    if recipes != [] {
      FilterByIdempotent(recipes[1..], rules);
      var rest := FilterBy(recipes[1..], rules);
      if KeepsAll(rules, recipes[0]) {
        assert ([recipes[0]] + rest)[0] == recipes[0] && ([recipes[0]] + rest)[1..] == rest;
      }
    }
  }

  /** `if (condition) filtered = filtered.filter(rule)`, with the optional rule standing for the condition. */
  function FilterIf(recipes: seq<Recipe>, rule: Option<Rule>): seq<Recipe>
  {
    if rule.Some? then Filter(recipes, rule.value) else recipes
  }

  /** The rule to apply when `condition` holds. */
  function When(condition: bool, rule: Rule): Option<Rule>
  {
    if condition then Some(rule) else None
  }

  /** The rule list an optional `.filter` contributes. */
  function Step(rule: Option<Rule>): seq<Rule>
  {
    if rule.Some? then [rule.value] else []
  }

  lemma FilterIfAfterFilterBy(recipes: seq<Recipe>, rules: seq<Rule>, rule: Option<Rule>)
    ensures FilterIf(FilterBy(recipes, rules), rule) == FilterBy(recipes, rules + Step(rule))
  {
    if rule.Some? {
      FilterAfterFilterBy(recipes, rules, rule.value);
    } else {
      assert rules + [] == rules;
    }
  }

  /** Three optional filters in a row are one `FilterBy` over the rules they used. */
  lemma ThreeStepsAreOneFilter(recipes: seq<Recipe>, a: Option<Rule>, b: Option<Rule>, c: Option<Rule>)
    ensures FilterIf(FilterIf(FilterIf(recipes, a), b), c) == FilterBy(recipes, Step(a) + Step(b) + Step(c))
  {
    FilterByNoRules(recipes);
    FilterIfAfterFilterBy(recipes, [], a);
    assert [] + Step(a) == Step(a);
    FilterIfAfterFilterBy(recipes, Step(a), b);
    FilterIfAfterFilterBy(recipes, Step(a) + Step(b), c);
  }

  /** `applyHalalFilters`: one `.filter` with the halal predicate. */
  function ApplyHalal(recipes: seq<Recipe>, settings: HalalSettings): (kept: seq<Recipe>)
    ensures forall r :: r in kept ==> r in recipes && !HasIngredient(r, HalalForbidden)
    ensures settings.certificationRequired == Some("strict") ==>
      forall r :: r in kept ==> Lists(r.certifications, "halal")
    ensures settings.certificationRequired == Some("preferred") ==>
      forall r :: r in kept && HasIngredient(r, HalalMeats) ==>
        Lists(r.certifications, "halal") || Lists(r.tags, "vegetarian")
    ensures settings.certificationRequired.None? ==>
      forall r :: r in kept <==> r in recipes && !HasIngredient(r, HalalForbidden)
  {
    Filter(recipes, Halal(settings))
  }

  /** `applyKosherFilters`: one `.filter` with the kosher predicate. */
  function ApplyKosher(recipes: seq<Recipe>, settings: KosherSettings): (kept: seq<Recipe>)
    ensures forall r :: r in kept ==> r in recipes && !HasIngredient(r, KosherForbidden)
    ensures settings.separateMeatDairy ==>
      forall r :: r in kept ==> !(HasIngredient(r, KosherMeats) && HasIngredient(r, KosherDairy))
    ensures settings.observanceLevel == Some("strict") ==>
      forall r :: r in kept ==> Lists(r.certifications, "kosher")
    ensures !settings.separateMeatDairy && settings.observanceLevel != Some("strict") ==>
      forall r :: r in kept <==> r in recipes && !HasIngredient(r, KosherForbidden)
  {
    Filter(recipes, Kosher(settings))
  }

  /** The `switch (hinduSettings?.dietaryPractice)` of `applyHinduFilters`. */
  function HinduPracticeRule(practice: Option<string>): Option<Rule>
  {
    if practice == Some("lacto-vegetarian") then Some(WithoutType(VegetarianTypes))
    else if practice == Some("lacto-ovo") then Some(WithoutType(LactoOvoTypes))
    else if practice == Some("non-veg-no-beef") then Some(Without(BeefAndVeal))
    else if practice == Some("vegan") then Some(WithoutType(VeganTypes))
    else None
  }

  /** The rules `applyHinduFilters` applies, in order. */
  function HinduRules(settings: HinduSettings): seq<Rule>
  {
    Step(HinduPracticeRule(settings.dietaryPractice))
    + Step(When(settings.avoidBeef, Without(BeefAndVeal)))
    + Step(When(settings.avoidOnionGarlic, Without(OnionFamily)))
  }

  /** `applyHinduFilters`: the practice filter, then beef, then the onion family. */
  function ApplyHindu(recipes: seq<Recipe>, settings: HinduSettings): (kept: seq<Recipe>)
    ensures forall r :: r in kept ==> r in recipes
    ensures settings.avoidBeef || settings.dietaryPractice == Some("non-veg-no-beef") ==>
      forall r :: r in kept ==> !HasIngredient(r, BeefAndVeal)
    ensures settings.avoidOnionGarlic ==> forall r :: r in kept ==> !HasIngredient(r, OnionFamily)
    ensures settings.dietaryPractice == Some("lacto-vegetarian") ==>
      forall r :: r in kept ==> !HasIngredientType(r, VegetarianTypes)
    ensures settings.dietaryPractice == Some("lacto-ovo") ==>
      forall r :: r in kept ==> !HasIngredientType(r, LactoOvoTypes)
    ensures settings.dietaryPractice == Some("vegan") ==>
      forall r :: r in kept ==> !HasIngredientType(r, VeganTypes)
  {
    var byPractice := FilterIf(recipes, HinduPracticeRule(settings.dietaryPractice));
    var withoutBeef := FilterIf(byPractice, When(settings.avoidBeef, Without(BeefAndVeal)));
    FilterIf(withoutBeef, When(settings.avoidOnionGarlic, Without(OnionFamily)))
  }

  lemma HinduIsOneFilter(recipes: seq<Recipe>, settings: HinduSettings)
    ensures ApplyHindu(recipes, settings) == FilterBy(recipes, HinduRules(settings))
  {
    ThreeStepsAreOneFilter(recipes, HinduPracticeRule(settings.dietaryPractice),
      When(settings.avoidBeef, Without(BeefAndVeal)), When(settings.avoidOnionGarlic, Without(OnionFamily)));
  }

  /** The `switch (buddhistSettings?.dietaryPractice)` of `applyBuddhistFilters`. */
  function BuddhistPracticeRule(practice: Option<string>): Option<Rule>
  {
    if practice == Some("vegetarian") then Some(WithoutType(MeatTypes))
    else if practice == Some("vegan") then Some(WithoutType(VeganTypes))
    else if practice == Some("pescatarian") then Some(WithoutType(MeatTypes))
    else None
  }

  /** The rules `applyBuddhistFilters` applies, in order. */
  function BuddhistRules(settings: BuddhistSettings): seq<Rule>
  {
    Step(BuddhistPracticeRule(settings.dietaryPractice))
    + Step(When(settings.avoidFivePungent, Without(FivePungent)))
  }

  /** `applyBuddhistFilters`: the practice filter, then the five pungent spices. */
  function ApplyBuddhist(recipes: seq<Recipe>, settings: BuddhistSettings): (kept: seq<Recipe>)
    ensures forall r :: r in kept ==> r in recipes
    ensures settings.dietaryPractice in {Some("vegetarian"), Some("pescatarian")} ==>
      forall r :: r in kept ==> !HasIngredientType(r, MeatTypes)
    ensures settings.dietaryPractice == Some("vegan") ==>
      forall r :: r in kept ==> !HasIngredientType(r, VeganTypes)
    ensures settings.avoidFivePungent ==> forall r :: r in kept ==> !HasIngredient(r, FivePungent)
  {
    var byPractice := FilterIf(recipes, BuddhistPracticeRule(settings.dietaryPractice));
    FilterIf(byPractice, When(settings.avoidFivePungent, Without(FivePungent)))
  }

  lemma BuddhistIsOneFilter(recipes: seq<Recipe>, settings: BuddhistSettings)
    ensures ApplyBuddhist(recipes, settings) == FilterBy(recipes, BuddhistRules(settings))
  {
    ThreeStepsAreOneFilter(recipes, BuddhistPracticeRule(settings.dietaryPractice),
      When(settings.avoidFivePungent, Without(FivePungent)), None);
    assert BuddhistRules(settings) + Step(None) == BuddhistRules(settings);
  }

  /** The rules `applyJainFilters` applies, in order. */
  function JainRules(settings: JainSettings): seq<Rule>
  {
    [WithoutType(VegetarianTypes), Without(OnionFamily)]
    + Step(When(settings.avoidRootVegetables, Without(RootVegetables)))
  }

  /**
   * `applyJainFilters`: vegetarian and onion-free whatever the settings, root
   * vegetables removed only when asked.
   */
  function ApplyJain(recipes: seq<Recipe>, settings: JainSettings): (kept: seq<Recipe>)
    ensures forall r :: r in kept ==>
      r in recipes && !HasIngredientType(r, VegetarianTypes) && !HasIngredient(r, OnionFamily)
    ensures settings.avoidRootVegetables ==> forall r :: r in kept ==> !HasIngredient(r, RootVegetables)
    ensures !settings.avoidRootVegetables ==>
      forall r :: r in kept <==>
        r in recipes && !HasIngredientType(r, VegetarianTypes) && !HasIngredient(r, OnionFamily)
  {
    var vegetarian := Filter(recipes, WithoutType(VegetarianTypes));
    var noOnion := Filter(vegetarian, Without(OnionFamily));
    FilterIf(noOnion, When(settings.avoidRootVegetables, Without(RootVegetables)))
  }

  lemma JainIsOneFilter(recipes: seq<Recipe>, settings: JainSettings)
    ensures ApplyJain(recipes, settings) == FilterBy(recipes, JainRules(settings))
  {
    var a, b := Some(WithoutType(VegetarianTypes)), Some(Without(OnionFamily));
    ThreeStepsAreOneFilter(recipes, a, b, When(settings.avoidRootVegetables, Without(RootVegetables)));
    assert Step(a) + Step(b) == [WithoutType(VegetarianTypes), Without(OnionFamily)];
  }

  /** The religions the service knows; any other value filters nothing. */
  predicate IsKnownReligion(religion: string)
  {
    religion in {"islamic", "jewish", "hindu", "buddhist", "jain"}
  }

  /** `filterRecipesForReligion`: dispatch on the religion; no diet, `'none'` or an unknown religion keep everything. */
  function FilterRecipesForReligion(recipes: seq<Recipe>, diet: Option<ReligiousDiet>): (kept: seq<Recipe>)
    ensures forall r :: r in kept ==> r in recipes
    ensures diet.None? || !IsKnownReligion(diet.value.religion) ==> kept == recipes
  {
    if diet.None? || diet.value.religion == "none" then recipes
    else
      var d := diet.value;
      if d.religion == "islamic" then ApplyHalal(recipes, d.halal)
      else if d.religion == "jewish" then ApplyKosher(recipes, d.kosher)
      else if d.religion == "hindu" then ApplyHindu(recipes, d.hindu)
      else if d.religion == "buddhist" then ApplyBuddhist(recipes, d.buddhist)
      else if d.religion == "jain" then ApplyJain(recipes, d.jain)
      else recipes
  }

  /** All the rules `filterRecipesForReligion` applies for a diet. */
  function RulesFor(diet: Option<ReligiousDiet>): seq<Rule>
  {
    if diet.None? then []
    else
      var d := diet.value;
      if d.religion == "islamic" then [Halal(d.halal)]
      else if d.religion == "jewish" then [Kosher(d.kosher)]
      else if d.religion == "hindu" then HinduRules(d.hindu)
      else if d.religion == "buddhist" then BuddhistRules(d.buddhist)
      else if d.religion == "jain" then JainRules(d.jain)
      else []
  }

  lemma SingleFilterIsFilterBy(recipes: seq<Recipe>, rule: Rule)
    ensures Filter(recipes, rule) == FilterBy(recipes, [rule])
  {
    FilterByNoRules(recipes);
    FilterAfterFilterBy(recipes, [], rule);
    assert [] + [rule] == [rule];
  }

  /** Every religion's filter is one `FilterBy` over that religion's rules. */
  lemma ReligionFilterIsOneFilter(recipes: seq<Recipe>, diet: Option<ReligiousDiet>)
    ensures FilterRecipesForReligion(recipes, diet) == FilterBy(recipes, RulesFor(diet))
  {
    FilterByNoRules(recipes);
    if diet.Some? {
      var d := diet.value;
      if d.religion == "islamic" {
        SingleFilterIsFilterBy(recipes, Halal(d.halal));
      } else if d.religion == "jewish" {
        SingleFilterIsFilterBy(recipes, Kosher(d.kosher));
      } else if d.religion == "hindu" {
        HinduIsOneFilter(recipes, d.hindu);
      } else if d.religion == "buddhist" {
        BuddhistIsOneFilter(recipes, d.buddhist);
      } else if d.religion == "jain" {
        JainIsOneFilter(recipes, d.jain);
      }
    }
  }

  /**
   * The filtered list is the input with some recipes deleted and the rest in their
   * original order, and a recipe survives exactly when every rule of the diet keeps it.
   */
  lemma ReligionFilterKeepsOrder(recipes: seq<Recipe>, diet: Option<ReligiousDiet>)
    ensures IsSubsequence(FilterRecipesForReligion(recipes, diet), recipes)
    ensures forall r :: r in FilterRecipesForReligion(recipes, diet) <==> r in recipes && KeepsAll(RulesFor(diet), r)
  {
    ReligionFilterIsOneFilter(recipes, diet);
  }

  /** Filtering twice for the same diet is the same as filtering once. */
  lemma ReligionFilterIdempotent(recipes: seq<Recipe>, diet: Option<ReligiousDiet>)
    ensures FilterRecipesForReligion(FilterRecipesForReligion(recipes, diet), diet)
              == FilterRecipesForReligion(recipes, diet)
  {
    ReligionFilterIsOneFilter(recipes, diet);
    ReligionFilterIsOneFilter(FilterRecipesForReligion(recipes, diet), diet);
    FilterByIdempotent(recipes, RulesFor(diet));
  }

  /**
   * Under the Hindu, Buddhist and Jain filters, which look only at ingredients, a
   * recipe with no ingredient list always survives.
   */
  lemma NoIngredientsSurvive(recipes: seq<Recipe>, diet: ReligiousDiet, recipe: Recipe)
    requires diet.religion in {"hindu", "buddhist", "jain"}
    requires recipe in recipes && recipe.ingredients.None?
    ensures recipe in FilterRecipesForReligion(recipes, Some(diet))
  {
    ReligionFilterKeepsOrder(recipes, Some(diet));
    var rules := RulesFor(Some(diet));
    IngredientRulesOnly(diet);
    forall i | 0 <= i < |rules|
      ensures Keeps(rules[i], recipe)
    {
      NoIngredientsNeverFlagged(recipe, if rules[i].Without? then rules[i].words else [],
                                if rules[i].WithoutType? then rules[i].types else []);
    }
  }

  /** The Hindu, Buddhist and Jain rules all test ingredients only. */
  lemma IngredientRulesOnly(diet: ReligiousDiet)
    requires diet.religion in {"hindu", "buddhist", "jain"}
    ensures forall i :: 0 <= i < |RulesFor(Some(diet))| ==>
      RulesFor(Some(diet))[i].Without? || RulesFor(Some(diet))[i].WithoutType?
  {
  }

  /** The answer of `isIngredientAllowed`. */
  datatype Verdict = Verdict(allowed: bool, reason: string)

  const Allowed := Verdict(true, "")
  const IslamicRejects: seq<string> := ["pork", "ham", "bacon", "alcohol", "wine", "beer"]
  const JewishRejects: seq<string> := ["pork", "shellfish", "shrimp", "crab", "lobster"]
  const OnionAndGarlic: seq<string> := ["onion", "garlic"]
  const JainRejects: seq<string> := ["onion", "garlic", "potato", "carrot", "meat", "eggs"]

  /** `isIngredientAllowed`: a name-only check of one ingredient against the diet. */
  function IsIngredientAllowed(ingredientName: string, diet: Option<ReligiousDiet>): (v: Verdict)
    ensures v.allowed <==> v.reason == ""
    ensures diet.None? || !IsKnownReligion(diet.value.religion) || diet.value.religion == "buddhist" ==> v == Allowed
    ensures !v.allowed ==> diet.Some? && diet.value.religion in {"islamic", "jewish", "hindu", "jain"}
    ensures diet.Some? && diet.value.religion == "islamic" ==>
      (!v.allowed <==> IncludesAny(ToLower(ingredientName), IslamicRejects))
    ensures diet.Some? && diet.value.religion == "jewish" ==>
      (!v.allowed <==> IncludesAny(ToLower(ingredientName), JewishRejects))
    ensures diet.Some? && diet.value.religion == "jain" ==>
      (!v.allowed <==> IncludesAny(ToLower(ingredientName), JainRejects))
    ensures diet.Some? && diet.value.religion == "hindu" ==>
      (!v.allowed <==>
        (diet.value.hindu.avoidBeef && IncludesAny(ToLower(ingredientName), BeefAndVeal)) ||
        (diet.value.hindu.avoidOnionGarlic && IncludesAny(ToLower(ingredientName), OnionAndGarlic)))
    ensures !v.allowed && diet.value.religion == "islamic" ==> v.reason == "Not halal"
    ensures !v.allowed && diet.value.religion == "jewish" ==> v.reason == "Not kosher"
    ensures !v.allowed && diet.value.religion == "jain" ==> v.reason == "Not Jain-compatible"
    ensures !v.allowed && diet.value.religion == "hindu" ==>
      v.reason == if diet.value.hindu.avoidBeef && IncludesAny(ToLower(ingredientName), BeefAndVeal)
                  then "Beef not consumed" else "Onion/garlic avoided"
  {
    if diet.None? || diet.value.religion == "none" then Allowed
    else
      var d := diet.value;
      var name := ToLower(ingredientName);
      if d.religion == "islamic" then
        if IncludesAny(name, IslamicRejects) then Verdict(false, "Not halal") else Allowed
      else if d.religion == "jewish" then
        if IncludesAny(name, JewishRejects) then Verdict(false, "Not kosher") else Allowed
      else if d.religion == "hindu" then
        if d.hindu.avoidBeef && IncludesAny(name, BeefAndVeal) then Verdict(false, "Beef not consumed")
        else if d.hindu.avoidOnionGarlic && IncludesAny(name, OnionAndGarlic) then Verdict(false, "Onion/garlic avoided")
        else Allowed
      else if d.religion == "jain" then
        if IncludesAny(name, JainRejects) then Verdict(false, "Not Jain-compatible") else Allowed
      else Allowed
  }

  /** An ingredient called `name` makes `recipe` contain any word of `words` that `name` contains. */
  lemma NamedIngredientFlags(recipe: Recipe, ing: Ingredient, name: string, words: seq<string>, wider: seq<string>)
    requires recipe.ingredients.Some? && ing in recipe.ingredients.value && ing.name == Some(name)
    requires IncludesAny(ToLower(name), words)
    requires forall w :: w in words ==> w in wider
    ensures HasIngredient(recipe, wider)
  {
    var w :| w in words && Includes(ToLower(name), w);
    assert w in wider;
    assert NameIncludesAny(ing, wider);
  }

  /**
   * The single-ingredient check and the recipe filter agree for Islam, Judaism and
   * Hinduism: an ingredient the check rejects removes every recipe that contains it.
   */
  lemma RejectedIngredientRemovesRecipe(recipes: seq<Recipe>, diet: ReligiousDiet, recipe: Recipe, ing: Ingredient, name: string)
    requires diet.religion in {"islamic", "jewish", "hindu"}
    requires recipe.ingredients.Some? && ing in recipe.ingredients.value && ing.name == Some(name)
    requires !IsIngredientAllowed(name, Some(diet)).allowed
    ensures recipe !in FilterRecipesForReligion(recipes, Some(diet))
  {
    var kept := FilterRecipesForReligion(recipes, Some(diet));
    if diet.religion == "islamic" {
      NamedIngredientFlags(recipe, ing, name, IslamicRejects, HalalForbidden);
    } else if diet.religion == "jewish" {
      NamedIngredientFlags(recipe, ing, name, JewishRejects, KosherForbidden);
    } else if diet.hindu.avoidBeef && IncludesAny(ToLower(name), BeefAndVeal) {
      NamedIngredientFlags(recipe, ing, name, BeefAndVeal, BeefAndVeal);
    } else {
      NamedIngredientFlags(recipe, ing, name, OnionAndGarlic, OnionFamily);
    }
  }

  /**
   * For Jainism the two disagree: the check rejects names containing "eggs", but the
   * filter looks at categories, so a recipe with an ingredient named "eggs" in the
   * "dairy" category survives.
   */
  lemma JainEggNameSurvivesFilter()
    ensures !IsIngredientAllowed("eggs", Some(ReligiousDiet("jain", HalalSettings(None),
              KosherSettings(false, None), HinduSettings(None, false, false),
              BuddhistSettings(None, false), JainSettings(false)))).allowed
    ensures var recipe := Recipe(Some([Ingredient(Some("eggs"), Some("dairy"))]), None, None);
      recipe in ApplyJain([recipe], JainSettings(true))
  {
    IncludesSelf("eggs");
    assert "eggs" in JainRejects;
    var ing := Ingredient(Some("eggs"), Some("dairy"));
    var recipe := Recipe(Some([ing]), None, None);
    assert ToLower("eggs") == "eggs";
    assert !HasIngredientType(recipe, VegetarianTypes) by {
      assert ToLower("dairy") == "dairy";
    }
    assert !HasIngredient(recipe, OnionFamily) by {
      forall w | w in OnionFamily ensures !Includes("eggs", w) {
        IncludesLongPart("eggs", w);
      }
    }
    assert !HasIngredient(recipe, RootVegetables) by {
      forall w | w in RootVegetables ensures !Includes("eggs", w) {
        IncludesLongPart("eggs", w);
      }
    }
  }
}
