# Nutrio progression engine and its neighbours, in Dafny

This project models the sequential core of the Nutrio nutrition app and proves properties of it.
The core has five parts.

- **Level curve** (`xp_curve.dfy`, module `XpCurve`). Each level costs `level * 100` XP. The
  cumulative cost of reaching a level is summed by a loop, and its inverse is found by repeated
  subtraction. The 100-row title table is grouped into six tiers. The module also holds the
  premium and streak multipliers and the every-tenth-level milestone test.
- **Achievements slice** (`achievements.dfy`, module `Achievements`). The Redux slice holds the
  XP ledger (`level`, `currentXP`, `totalXP`) and the level-up loop. It also holds badge unlocks
  with their XP bonus, per-day per-source XP bookkeeping and achievement progress. It is a class,
  `AchievementsState`, whose methods are the reducers. The class invariant is the ledger
  identity: the levels below `level` are paid out of `totalXP`, and the rest is `currentXP`,
  which never covers the current level. The main result is `ReplayAgreesWithRehydration`. It
  replays any sequence of non-negative grants, then rehydrates a fresh slice with `setXP` from
  the replayed total, and shows that both reach the same level and progress.
- **Auth slice** (`auth.dfy`, module `Auth`). This is sign-in state plus the daily scan quota
  with its tiered premium cooldown. It is a class, `AuthState`. The two branching reducers are
  also functions on a value, `AuthSlice`, so that lemmas can compose them.
- **Religious diet filter** (`religious_diet_filter.dfy`, module `ReligiousDietFilter`). Each
  `.filter(...)` call is one `Rule`. Every religion's filter is proved equal to one `FilterBy`
  over that religion's rule list. Order preservation, membership and idempotence follow from
  that, alongside the safety properties of each diet. The single-ingredient check
  `isIngredientAllowed` is modelled and compared with the recipe filter.
- **Seasonal foods** (`seasonal_foods.dfy`, module `SeasonalFoods`). This covers the hemisphere
  of a region, the season of a month, the food table for a hemisphere and season, the in-season
  check, and the seasonality score with its badge.

Support modules:
- `Wrappers`: `Option`.
- `Text`: ASCII lower-casing and JavaScript's `String.prototype.includes`.
- `Sequences`: order-preserving subsequences.
- `Recipes`: the recipe and ingredient records shared by the two services.

The calendar day and the clock are always parameters: `today` and `now` on the slices, and a
month index on the seasonal service.

The tier comment at src/constants/xpConstants.js:56 reads "41-60", but the entries under it
stop at level 50, and 51-70 are Cosmic. The model follows the entries.

The XP daily caps are declared at src/constants/xpConstants.js:279-283 but never read by
`addXP`. The model records daily XP without clamping it, as the code does.

## Model

| member | source | states |
|---|---|---|
| XpCurve.BeginnerBlockFollowsBreakpoints | src/constants/xpConstants.js:10-20 | the first 10 rows are levels 1-10, all Beginner |
| XpCurve.IntermediateBlockFollowsBreakpoints | src/constants/xpConstants.js:22-37 | the next 15 rows are levels 11-25, all Intermediate |
| XpCurve.AdvancedBlockFollowsBreakpoints | src/constants/xpConstants.js:39-54 | the next 15 rows are levels 26-40, all Advanced |
| XpCurve.EliteBlockFollowsBreakpoints | src/constants/xpConstants.js:56-66 | the next 10 rows are levels 41-50, all Elite |
| XpCurve.CosmicBlockFollowsBreakpoints | src/constants/xpConstants.js:68-88 | the next 20 rows are levels 51-70, all Cosmic |
| XpCurve.GodBlockFollowsBreakpoints | src/constants/xpConstants.js:90-120 | the last 30 rows are levels 71-100, all God |
| XpCurve.TitleTableFollowsBreakpoints | src/constants/xpConstants.js:9-121 | the table has 100 rows; row i describes level i+1 with the breakpoint tier of that level |
| XpCurve.ClampLevel | src/constants/xpConstants.js:125 | the result is in 1..100: the level itself inside that range, 1 below it, 100 above it |
| XpCurve.GetLevelInfo | src/constants/xpConstants.js:124-127 | the answer is a row of the table, for the clamped level, with that level's breakpoint tier |
| XpCurve.XPForLevel | src/constants/xpConstants.js:137-139 | the cost of one level, level * 100; see XpCurve.XPForLevelIncreasing |
| XpCurve.XPForLevelIncreasing | src/constants/xpConstants.js:137-139 | the per-level cost is strictly increasing and at least 100 from level 1 on |
| XpCurve.CumulativeXP | src/constants/xpConstants.js:144-150 | the cumulative cost of any level is never negative |
| XpCurve.CumulativeXPClosedForm | src/constants/xpConstants.js:144-150 | the cumulative cost of level n is 50 n (n-1) |
| XpCurve.CumulativeXPGrows | src/constants/xpConstants.js:144-150 | a higher level costs at least the lower level's cumulative cost plus that level's own cost |
| XpCurve.TotalXPForLevel | src/constants/xpConstants.js:144-150 | the summing loop returns the cumulative cost: 0 for targets up to 1, 50 n (n-1) from 1 on |
| XpCurve.SplitIsUnique | src/constants/xpConstants.js:155-169 | a lifetime total determines the level and the progress within it |
| XpCurve.LevelFromXP | src/constants/xpConstants.js:155-169 | level >= 1; xpForNextLevel is that level's cost; cumulative cost + currentXP == total; for a total >= 0, 0 <= currentXP < that level's cost; a negative total stays at level 1 |
| XpCurve.LevelOfCumulativeXP | src/constants/xpConstants.js:144-169 | round trip: the cumulative cost of level n splits as level n with 0 progress |
| XpCurve.FiveThousandXPIsLevelTen | src/constants/xpConstants.js:155-169 | 5000 lifetime XP is level 10 with 500 XP of progress |
| XpCurve.StreakMultiplier | src/constants/xpConstants.js:266-269 | the multiplier in tenths is 10 + floor(days/7) below 70 days, 20 from 70 days on, never above 20, and at least 10 for non-negative streaks |
| XpCurve.StreakMultiplierMonotone | src/constants/xpConstants.js:266-269 | a longer streak never lowers the multiplier |
| XpCurve.IsLevelMilestone | src/constants/xpConstants.js:272 | the every-tenth-level test; see XpCurve.MilestonesEveryTenLevels |
| XpCurve.MilestonesEveryTenLevels | src/constants/xpConstants.js:272 | a level is a milestone iff it is 10k for some k >= 1: every other level, including 1-9, 0 and all negative levels, is not |
| Achievements.FloorMultiply | src/store/achievementsSlice.js:28 | a non-negative amount at a non-negative multiplier earns non-negative XP |
| Achievements.FloorMultiplyIsFloor | src/store/achievementsSlice.js:28 | the scaled XP is the floor of amount times multiplier: the largest integer not above the exact product |
| Achievements.XPToAdd | src/store/achievementsSlice.js:23-29 | the amount is scaled and floored only when the caller asks and supplies a non-zero multiplier; otherwise it is the amount itself |
| Achievements.PremiumGrantTruncates | src/store/achievementsSlice.js:27-29 | 15 XP at the premium 1.5x is 22, not 23; without applyMultiplier it is 15 |
| Achievements.RecordDailyXP | src/store/achievementsSlice.js:51-59 | today's entry for the source grows by exactly the granted XP and is created if missing; other days and other sources are unchanged; there is no cap |
| Achievements.KeepOnlyToday | src/store/achievementsSlice.js:122-130 | only today's key survives, with its value unchanged |
| Achievements.FindTracked | src/store/achievementsSlice.js:112 | the first achievement with that id, or none when no entry has it |
| Achievements.AchievementsState.constructor | src/store/achievementsSlice.js:4-16 | the initial slice: level 1, no XP, nothing unlocked, Beginner row 1; it satisfies the ledger invariant |
| Achievements.AchievementsState.ClimbLevels | src/store/achievementsSlice.js:36-43 | the loop keeps the ledger identity and leaves currentXP below the level's cost; it climbs iff the old progress covered the old level; lastLevelUp changes only when a level is gained |
| Achievements.AchievementsState.RefreshLevelInfo | src/store/achievementsSlice.js:45-49 | title, emoji and tier show the current level as getLevelInfo gives it |
| Achievements.AchievementsState.Credit | src/store/achievementsSlice.js:32-49 | totalXP grows by the grant; level never drops; leveledUp iff a level was gained; with non-negative progress the ledger is the unique split of totalXP |
| Achievements.AchievementsState.AddXP | src/store/achievementsSlice.js:22-62 | xpAdded is XPToAdd; totalXP grows by it; level never drops; the result is the split of totalXP; daily XP is recorded uncapped; badges, unlocks and progress are unchanged |
| Achievements.AchievementsState.SetXP | src/store/achievementsSlice.js:65-77 | rehydration: totalXP is the given total and (level, currentXP) is its split; the display fields follow; everything else is unchanged |
| Achievements.AchievementsState.UnlockAchievement | src/store/achievementsSlice.js:79-108 | an already unlocked id changes nothing; otherwise the id and one recent unlock are appended, the bonus goes through the level-up loop, and the daily XP is untouched |
| Achievements.AchievementsState.UpdateAchievementProgress | src/store/achievementsSlice.js:110-116 | the first achievement with the id gets the new progress; with no match the list is unchanged |
| Achievements.AchievementsState.ClearRecentUnlocks | src/store/achievementsSlice.js:118-120 | recentUnlocks becomes empty and nothing else changes |
| Achievements.AchievementsState.ResetDailyXP | src/store/achievementsSlice.js:122-130 | dailyXPEarned keeps only today's entry and nothing else changes |
| Achievements.ReplayAgreesWithRehydration | src/store/achievementsSlice.js:22-108 | replaying any non-negative addXP/unlockAchievement sequence and rehydrating with setXP from its total give the same level and progress, with 0 <= currentXP < the level's cost |
| Achievements.LargeGrantClimbsSeveralLevels | src/store/achievementsSlice.js:36-43 | one 5000 XP grant at level 1 reaches level 10 with 500 XP and reports a level-up |
| Auth.CooldownSeconds | src/store/authSlice.js:81-89 | 0 seconds iff fewer than 16 scans, 30 iff 16-25, 120 iff 26 or more |
| Auth.CooldownNonDecreasing | src/store/authSlice.js:83-89 | more scans never shorten the cooldown |
| Auth.IncrementScans | src/store/authSlice.js:65-106 | a new day restarts the count at 1, the same day adds 1, and the day is recorded; premium users get a deadline of now+120000 / now+30000 / none; other users keep theirs; lastScanTimestamp is now; other fields are unchanged |
| Auth.ResetScans | src/store/authSlice.js:107-117 | nothing changes on the recorded day; on another day the count is 0, the day is recorded and the cooldown is dropped; quota validity is kept |
| Auth.ResetScansIdempotent | src/store/authSlice.js:107-117 | resetting twice on one day is resetting once |
| Auth.ResetThenScan | src/store/authSlice.js:65-117 | a scan after the day's reset counts one more than the reset left (1 on a new day), and a reset later that day undoes nothing |
| Auth.ScansOnDayCounts | src/store/authSlice.js:65-117 | n scans after the day's reset add exactly n to the count the day started with |
| Auth.AuthState.constructor | src/store/authSlice.js:3-15 | the initial slice: signed out, basic plan, no scans, no cooldown |
| Auth.AuthState.SetCredentials | src/store/authSlice.js:21-26 | user and token are set, authenticated, error cleared, nothing else changes |
| Auth.AuthState.SetLoading | src/store/authSlice.js:27-29 | only isLoading changes |
| Auth.AuthState.SetError | src/store/authSlice.js:30-33 | error is set, loading stops, nothing else changes |
| Auth.AuthState.Logout | src/store/authSlice.js:34-41 | user and token cleared, the three flags false, scans 0, no scan day; isLoading, error, cooldown and last scan time are kept |
| Auth.AuthState.SetOnboardingComplete | src/store/authSlice.js:50-55 | only hasCompletedOnboarding changes |
| Auth.AuthState.UpdateUser | src/store/authSlice.js:56-58 | the profile is the old one overwritten by the payload: payload keys take payload values, other old keys are kept, no other key appears; nothing else changes |
| Auth.AuthState.SetPremiumStatus | src/store/authSlice.js:59-64 | only isPremium changes |
| Auth.AuthState.IncrementDailyScans | src/store/authSlice.js:65-106 | the new state is IncrementScans of the old one; at least one scan is recorded for today |
| Auth.AuthState.ResetDailyScans | src/store/authSlice.js:107-117 | the new state is ResetScans of the old one |
| Auth.AuthState.ClearCooldown | src/store/authSlice.js:118-121 | only the cooldown deadline changes, to none |
| Text.ToLower | src/services/religiousDietFilterService.js:46 | lower-casing keeps the length and maps each character by itself |
| Text.Includes | src/services/religiousDietFilterService.js:46 | `String.prototype.includes`; see Text.IncludesIffOccurs |
| Text.IncludesAt | src/services/religiousDietFilterService.js:46 | a window of the string holding the part makes the string include it |
| Text.IncludesIffOccurs | src/services/religiousDietFilterService.js:46 | `includes` holds iff some window of the string equals the part |
| Text.ForeignCharNotIncluded | src/services/seasonalFoodsService.js:177-180 | a part holding a character the string lacks is not included |
| Text.IncludesLongPart | src/services/religiousDietFilterService.js:272 | a part at least as long as the string is included only when it equals the string |
| Sequences.SubsequenceTransitive | src/services/religiousDietFilterService.js:116-161 | a subsequence of a subsequence is a subsequence |
| ReligiousDietFilter.ChainedFiltersKeepOrder | src/services/religiousDietFilterService.js:116-161 | two `.filter` calls in a row keep the input's order |
| ReligiousDietFilter.HasIngredient | src/services/religiousDietFilterService.js:225-231 | some ingredient name holds a listed word; see ReligiousDietFilter.NamedIngredientFlags and ReligiousDietFilter.NoIngredientsNeverFlagged |
| ReligiousDietFilter.HasIngredientType | src/services/religiousDietFilterService.js:234-238 | some ingredient category is listed; see ReligiousDietFilter.NoIngredientsNeverFlagged |
| ReligiousDietFilter.NoIngredientsNeverFlagged | src/services/religiousDietFilterService.js:224-238 | a recipe without an ingredient list is never flagged by hasIngredient or hasIngredientType |
| ReligiousDietFilter.Filter | src/services/religiousDietFilterService.js:200-202 | one `.filter`: the kept recipes are a subsequence of the input; a recipe the rule keeps appears as many times as in the input, any other not at all |
| ReligiousDietFilter.FilterBy | src/services/religiousDietFilterService.js:116-161 | a chain of filters: a subsequence of the input; a recipe every rule keeps appears as many times as in the input, any other not at all |
| ReligiousDietFilter.FilterByNoRules | src/services/religiousDietFilterService.js:117 | with no filters applied the list is unchanged |
| ReligiousDietFilter.FilterAfterFilterBy | src/services/religiousDietFilterService.js:147-151 | one more `.filter` after a chain is the chain with that rule appended |
| ReligiousDietFilter.FilterByIdempotent | src/services/religiousDietFilterService.js:116-161 | running a filter chain on its own output removes nothing more |
| ReligiousDietFilter.FilterIfAfterFilterBy | src/services/religiousDietFilterService.js:153-158 | a conditional `.filter` after a chain is the chain with the rule appended when the condition holds |
| ReligiousDietFilter.ThreeStepsAreOneFilter | src/services/religiousDietFilterService.js:116-161 | three conditional filters in a row are one chain over the rules they used |
| ReligiousDietFilter.KeepsHalal | src/services/religiousDietFilterService.js:42-68 | the halal filters' test on one recipe; see ReligiousDietFilter.ApplyHalal |
| ReligiousDietFilter.ApplyHalal | src/services/religiousDietFilterService.js:36-70 | no survivor has a forbidden word in an ingredient name; under 'strict' every survivor is halal-certified; under 'preferred' every surviving meat recipe is halal-certified or tagged vegetarian; with no setting, exactly the recipes without forbidden words survive |
| ReligiousDietFilter.KeepsKosher | src/services/religiousDietFilterService.js:77-112 | the kosher filters' test on one recipe; see ReligiousDietFilter.ApplyKosher |
| ReligiousDietFilter.ApplyKosher | src/services/religiousDietFilterService.js:73-113 | no survivor has a forbidden word; with separateMeatDairy no survivor has both meat and dairy; under 'strict' every survivor is kosher-certified; with neither setting, exactly the recipes without forbidden words survive |
| ReligiousDietFilter.ApplyHindu | src/services/religiousDietFilterService.js:116-161 | avoidBeef or 'non-veg-no-beef' removes beef and veal; avoidOnionGarlic removes the onion family; the vegetarian, lacto-ovo and vegan practices exclude their categories |
| ReligiousDietFilter.HinduIsOneFilter | src/services/religiousDietFilterService.js:116-161 | the Hindu filter is one chain over the practice, beef and onion rules |
| ReligiousDietFilter.ApplyBuddhist | src/services/religiousDietFilterService.js:164-195 | vegetarian and pescatarian exclude meat; vegan excludes the five animal categories; avoidFivePungent removes the five pungent spices |
| ReligiousDietFilter.BuddhistIsOneFilter | src/services/religiousDietFilterService.js:164-195 | the Buddhist filter is one chain over the practice and pungent rules |
| ReligiousDietFilter.ApplyJain | src/services/religiousDietFilterService.js:198-222 | whatever the settings, no survivor has meat, fish or egg categories or onion-family names; root vegetables are removed iff avoidRootVegetables is set |
| ReligiousDietFilter.JainIsOneFilter | src/services/religiousDietFilterService.js:198-222 | the Jain filter is one chain over its rules |
| ReligiousDietFilter.FilterRecipesForReligion | src/services/religiousDietFilterService.js:7-33 | survivors come from the input; no diet, 'none' or an unknown religion returns the input unchanged |
| ReligiousDietFilter.SingleFilterIsFilterBy | src/services/religiousDietFilterService.js:42-69 | a single `.filter` is a chain of one rule |
| ReligiousDietFilter.ReligionFilterIsOneFilter | src/services/religiousDietFilterService.js:7-33 | every religion's filter is one chain over that religion's rules |
| ReligiousDietFilter.ReligionFilterKeepsOrder | src/services/religiousDietFilterService.js:7-222 | the result is an order-preserving subsequence of the input, and a recipe survives iff every rule of the diet keeps it |
| ReligiousDietFilter.ReligionFilterIdempotent | src/services/religiousDietFilterService.js:7-222 | filtering twice for the same diet is filtering once |
| ReligiousDietFilter.NoIngredientsSurvive | src/services/religiousDietFilterService.js:116-238 | under the Hindu, Buddhist and Jain filters a recipe without ingredients always survives |
| ReligiousDietFilter.IngredientRulesOnly | src/services/religiousDietFilterService.js:116-222 | the Hindu, Buddhist and Jain rules all test ingredients only |
| ReligiousDietFilter.IsIngredientAllowed | src/services/religiousDietFilterService.js:241-279 | allowed iff the reason is empty; no diet, buddhist and unknown religions are always allowed; for each other religion it is rejected iff the name holds one of that religion's words; the reason is "Not halal", "Not kosher" or "Not Jain-compatible", and for Hindus "Beef not consumed" when avoidBeef is set and the name holds beef or veal, otherwise "Onion/garlic avoided" |
| ReligiousDietFilter.NamedIngredientFlags | src/services/religiousDietFilterService.js:224-231 | an ingredient whose name holds a listed word flags its recipe under hasIngredient |
| ReligiousDietFilter.RejectedIngredientRemovesRecipe | src/services/religiousDietFilterService.js:241-279 | for islamic, jewish and hindu diets, an ingredient the check rejects removes every recipe containing it |
| ReligiousDietFilter.JainEggNameSurvivesFilter | src/services/religiousDietFilterService.js:271-274 | for Jains the check rejects "eggs", yet a recipe with an "eggs" ingredient in the "dairy" category survives the filter |
| SeasonalFoods.GetHemisphere | src/services/seasonalFoodsService.js:111-122 | southern exactly for AU, NZ, BR, AR and ZA; northern for every other region |
| SeasonalFoods.GetSeason | src/services/seasonalFoodsService.js:125-139 | months outside 1..12 give spring |
| SeasonalFoods.SouthernSeasonIsShifted | src/services/seasonalFoodsService.js:126-137 | the southern season of a month is the northern season six months away, and the shift is its own inverse |
| SeasonalFoods.SeasonsAreThreeMonths | src/services/seasonalFoodsService.js:126-137 | the season of each month 1..12 begins at most two months earlier (spring at March in the north and September in the south, and so on), so every season is three consecutive months |
| SeasonalFoods.GetSeasonalFoods | src/services/seasonalFoodsService.js:152-165 | month is the month index + 1; season is that month's season in the region's hemisphere; the lists are that table entry's |
| SeasonalFoods.Vegetables | src/services/seasonalFoodsService.js:6-108 | the vegetable table; see SeasonalFoods.CherriesInSeasonInMay and SeasonalFoods.AsparagusPeaksInApril |
| SeasonalFoods.Fruits | src/services/seasonalFoodsService.js:6-108 | the fruit table; see SeasonalFoods.CherriesInSeasonInMay and SeasonalFoods.CherriesOutOfSeasonInJune |
| SeasonalFoods.NameMatches | src/services/seasonalFoodsService.js:177-180 | the food-name test of the search; see SeasonalFoods.NameMatchIsContainment |
| SeasonalFoods.NameMatchIsContainment | src/services/seasonalFoodsService.js:177-180 | a food matches a name iff the lower-cased name contains the lower-cased food name |
| SeasonalFoods.FindFood | src/services/seasonalFoodsService.js:177-180 | none iff no food matches; otherwise the first food that matches |
| SeasonalFoods.IsInSeason | src/services/seasonalFoodsService.js:168-191 | in season iff the first matching food of the season peaks in the month, with its savings and footprint; otherwise not in season, 0 savings and no footprint |
| SeasonalFoods.InSeasonHasWitness | src/services/seasonalFoodsService.js:168-191 | an in-season answer names a food of the current season that matches and peaks in that month |
| SeasonalFoods.AsparagusPeaksInApril | src/services/seasonalFoodsService.js:168-191 | asparagus in the US is in season in April (45% savings, low footprint) and not in March |
| SeasonalFoods.NotCherries | src/services/seasonalFoodsService.js:177-180 | a food whose lower-cased name holds a letter absent from "cherries" does not match it |
| SeasonalFoods.SpringSearchFindsCherries | src/services/seasonalFoodsService.js:15-20 | searching the northern spring lists for "cherries" finds the Cherries entry |
| SeasonalFoods.CherriesInSeasonInMay | src/services/seasonalFoodsService.js:19 | cherries are listed in the northern spring and are in season in the US in May (55% savings, low footprint) |
| SeasonalFoods.CherriesOutOfSeasonInJune | src/services/seasonalFoodsService.js:19 | June is a peak month of the Cherries entry and a summer month, and in June the US check says cherries are not in season |
| SeasonalFoods.SeasonalIngredients | src/services/seasonalFoodsService.js:205-210 | the seasonal ingredients are a subsequence of the ingredients, holding each ingredient that matches a seasonal food as many times as the recipe does, and no other |
| SeasonalFoods.Names | src/services/seasonalFoodsService.js:216 | one name per ingredient, in order |
| SeasonalFoods.RoundedPercent | src/services/seasonalFoodsService.js:212-215 | the score is in 0..100 and is k/n*100 rounded half up |
| SeasonalFoods.SeasonalBadge | src/services/seasonalFoodsService.js:218 | Highly Seasonal iff the unrounded ratio is >= 70%, Seasonal iff it is in [40%, 70%), none below 40% |
| SeasonalFoods.CalculateSeasonalityScore | src/services/seasonalFoodsService.js:194-220 | missing or empty ingredients give score 0 and no badge; otherwise score in 0..100, total is the ingredient count, and the seasonal ingredients are the matching subsequence |
| SeasonalFoods.BadgeAgreesWithScore | src/services/seasonalFoodsService.js:212-218 | a Highly Seasonal badge comes with a rounded score >= 70; Seasonal with 40..70; no badge with at most 40 |
| SeasonalFoods.RoundingKeepsThresholds | src/services/seasonalFoodsService.js:212-218 | rounding never moves a score across the 40 and 70 thresholds the wrong way |
| SeasonalFoods.SeventyCanBeMerelySeasonal | src/services/seasonalFoodsService.js:212-218 | 16 seasonal ingredients of 23 show a score of 70 but only the Seasonal badge, because the badge uses the unrounded 69.56% |

## Left out

- Display strings: the title and emoji strings of the level table, `TIER_COLORS` and the badge captions are configuration. A `LevelInfo` carries its table row number and its tier, the slice stores that row for title and emoji, and badges are an enum.
- Floating point: multipliers are exact fractions (1.5 is 3/2, streak factors are tenths). The IEEE drift of `0.1` steps, such as 1.7000000000000002, is not modelled.
- SeasonalFoods.RoundedPercent: computes `Math.round(k / n * 100)` exactly, as (200k + n) div 2n. A floating-point product that lands just below a .5 boundary may round differently in the app.
- Non-integer, NaN and non-numeric inputs (levels, amounts, `achievement.xp`, dates) are not modelled. So the `|| LEVEL_TITLES[1]` fallback of `getLevelInfo`, which only a non-integer level reaches, is absent. A missing or zero achievement bonus is `xp == 0`.
- Achievements.AchievementsState.AddXP: models the update the reducer evidently intends. As written, the reducer at src/store/achievementsSlice.js:22-62 both changes its draft and returns `{ leveledUp, xpAdded }` (line 61). Immer, which runs Redux Toolkit reducers, throws on a producer that does both, so a grant that changes the slice is not applied. A grant that leaves the draft unchanged (0 XP to an existing day and source entry) replaces the whole slice with that object. The model applies the mutation and returns both values as method outputs.
- Achievements.AchievementsState.ClimbLevels: the source reads the clock on each pass of the loop. The model stamps every level gained in one call with the same `now`.
- Browser storage: the `localStorage` and `sessionStorage` writes of the auth slice are side effects outside the state and are not modelled.
- Clocks: `new Date()` and `Date.now()` become the parameters `today`, `now` and the month index.
- A user profile is a map from string keys to string values. Non-string profile fields are not modelled.
- `calculateSeasonalSavings` and `getCurrentSeasonName` are not modelled. The first is floating-point money formatting; the second capitalises a season name for display.
- SeasonalFoods.GetSeasonalFoods: does not state, for every food in the table, that the food's peak months fall in the season it is listed under, because that does not hold. Cherries are listed under the northern spring with peak months 5 and 6 (src/services/seasonalFoodsService.js:19), but June is summer, so in June the check reports cherries as out of season; SeasonalFoods.CherriesOutOfSeasonInJune states this. The other entries' peak months lie in their season; that is not proved over the whole table.
- Lower-casing covers ASCII letters only. JavaScript's full Unicode `toLowerCase` is not modelled.
- An ingredient entry that is `null` makes the app throw inside `some`; ingredients here are always records, with optional name and category.
- Settings flags are booleans and arrays hold strings. JavaScript truthiness of other values is not modelled, and a missing settings object is the settings with every field missing.
- The weekend and first-action-of-day multipliers (src/constants/xpConstants.js:262-263) are not modelled: the modelled code never reads them, and `addXP` takes its multiplier from the caller.
- The XP rewards table, other XP constants, and the 3x milestone boost that the milestone comment mentions are not used by the modelled code and are not modelled.
