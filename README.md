# Anti-waste food app: a Dafny model of its core logic

This project models the logic behind a food-waste web application, a Next.js/React site in
French that helps a household track its food, cook what is about to expire, share surplus
and talk to a chat assistant. The model covers:

- **The waste predictor.** Each inventory item gets a waste probability from its days until
  expiry, the user's consumption pattern for its category and any surplus. From that
  probability come a risk band, a suggested action with its reasoning text, a cost and an
  environmental impact (module `WastePredictor`).
- **Gamification.** The logarithmic level curve and the points needed for the next level,
  the points table for user actions, and the achievement catalogue computed from the user's
  statistics (`Gamification`).
- **The list pages.** The inventory, recipe and community pages filter by tab and by a
  case-insensitive search. The dashboard list also picks a picture for each food
  (`InventoryPage`, `RecipesPage`, `CommunityPage`, `FoodItemsList`).
- **The day-count classifiers.** Colours, badge variants, progress values and bar widths, plus
  the "n jour(s)" / "Expiré" label (`ExpiryLabels`, `UpcomingExpirations`, `FluidFoodItem`).
- **The interactive widgets.** Three image carousels and a testimonial carousel that wrap
  around, a zoom/rotate image viewer, a 360-degree drag viewer, a shopping-list checklist,
  the smart recipe generator's selection state, and the community map's projection and
  selected marker (`ImageGallery`, `RecipeGallery`, `FluidTestimonial`, `Cyclic`, `Zoom`,
  `ImageViewer`, `Image360Viewer`, `ShoppingList`, `SmartRecipeGenerator`, `CommunityMap`).
- **The chat assistant.** The send guard, the streamed reply read chunk by chunk and line by
  line, the `<think>…</think>` part shown apart and removed from the answer, the per-id
  update of the reply bubble, and the error notice (`AssistantPage`).

Pure code (calculations, classifiers, filters) is modelled as functions with lemmas. React
state that handlers change is modelled as a class per component: one field per `useState`
and one `modifies this` method per handler, each proved against the specification
functions. The loops of the chat's stream reader are methods with loop invariants.

Helper modules:

- `Wrappers`: `Option`.
- `Text`: ASCII lower-casing, `includes`, `indexOf`, `trim`-blankness, `join`, and decimal
  printing with its round trip.
- `Seqs`: an order-preserving `Array.prototype.filter` and its algebra.
- `Cyclic`: the `(i ± 1) % n` index arithmetic the carousels share.

Clocks are parameters:

- `now` for `new Date()` and `Date.now()` in the predictor;
- `userClock`, `replyClock` and `errorClock` for the three `Date.now()` readings that name
  chat messages.

The network request is a `StreamOutcome` value: either no stream, or the decoded chunks with
a flag for an error after the last one. `JSON.parse(line).response` and
`encodeURIComponent` are function parameters whose behaviour the model does not fix.

## Model

| member | source | states |
|---|---|---|
| WastePredictor.OrDefault | lib/ai/predictive-waste-model.ts:33 | `x \|\| d` on a number: the default is taken exactly when `x` is 0 (or already equals it), otherwise `x` is kept |
| WastePredictor.DaysUntilExpiry | lib/ai/predictive-waste-model.ts:29 | the rounded-down whole days until expiry: `d` full days fit in the remaining milliseconds and `d + 1` do not |
| WastePredictor.FindPattern | lib/ai/predictive-waste-model.ts:32 | the first consumption pattern of the item's category; none exactly when no pattern has that category |
| WastePredictor.ConsumptionFrequency | lib/ai/predictive-waste-model.ts:33 | the pattern's frequency, or 7 days when there is no pattern or its frequency is 0; never 0, so the divisions that follow are defined |
| WastePredictor.Clamp01 | lib/ai/predictive-waste-model.ts:55 | the result lies in [0, 1]; values inside are kept, values below become 0 and values above become 1 |
| WastePredictor.Probability | lib/ai/predictive-waste-model.ts:36-55 | the waste probability is always in [0, 1] and is exactly 1 for an expired item |
| WastePredictor.RiskOf | lib/ai/predictive-waste-model.ts:57-61 | low below 0.3, medium from 0.3 to below 0.7, high from 0.7, each as an if-and-only-if |
| WastePredictor.AdviceFor | lib/ai/predictive-waste-model.ts:63-86 | share exactly above 0.7 with a day or more left; preserve exactly above 0.4 up to 0.7 when preservable; consume in every other case; each reasoning text tied to its case; donate never |
| WastePredictor.ReasoningTextsDistinct | lib/ai/predictive-waste-model.ts:63-86 | the five reasoning texts differ, so the text identifies the branch taken |
| WastePredictor.WeightInKg | lib/ai/predictive-waste-model.ts:92-97 | kilograms are kept, grams are divided by 1000, and any other unit counts as 0.5 kg |
| WastePredictor.Predict | lib/ai/predictive-waste-model.ts:27-112 | one prediction: the item's id and name are copied, the probability is in [0, 1], an expired item is certain waste with high risk, the risk band matches the probability, donation is never suggested, the probability is Probability of the day count, the matched pattern and the item, the action and reasoning are AdviceFor of that probability, the impact is ImpactOf the item and the cost falls back to 0 without a price |
| WastePredictor.PredictFoodWaste | lib/ai/predictive-waste-model.ts:18-114 | one prediction per inventory item, in inventory order, carrying that item's id and name |
| WastePredictor.PredictItem | lib/ai/predictive-waste-model.ts:27-112 | the step-by-step computation of one prediction equals `Predict` |
| WastePredictor.ComputeProbability | lib/ai/predictive-waste-model.ts:33-55 | the imperative probability computation, with its reassignments, equals `Probability`, so it is in [0, 1] |
| WastePredictor.ChooseRisk | lib/ai/predictive-waste-model.ts:57-61 | the `let` and `if` chain gives the band `RiskOf` |
| WastePredictor.ChooseAction | lib/ai/predictive-waste-model.ts:63-86 | the nested branches give `AdviceFor`'s action and text; never donate |
| WastePredictor.ComputeImpact | lib/ai/predictive-waste-model.ts:88-111 | the imperative impact computation equals `ImpactOf` |
| WastePredictor.ImpactOf | lib/ai/predictive-waste-model.ts:88-111 | the CO2 and water saved: the weight in kg times the per-kg factors, each factor falling back to 2.5 and 1000 when there is no environmental data or when it is 0 |
| WastePredictor.BaseProbability | lib/ai/predictive-waste-model.ts:36-47 | 1 for an expired item; for a positive frequency, at most 0.7 otherwise; above 0.2 while less than half a cycle is left; from half a cycle on at most 0.225, and not negative exactly up to two cycles |
| WastePredictor.HasSurplus | lib/ai/predictive-waste-model.ts:50 | a surplus needs a pattern: a comparison with the missing average is false |
| WastePredictor.ExpiredIsCertainWaste | lib/ai/predictive-waste-model.ts:38-61 | an item past its expiry date has probability 1 and high risk, whatever the patterns |
| WastePredictor.ClampIsNeeded | lib/ai/predictive-waste-model.ts:43-55 | the unclamped formula leaves [0, 1] on both sides (a day past expiry with surplus; ten weeks away with surplus), so the clamp matters |
| WastePredictor.NoPatternDefaults | lib/ai/predictive-waste-model.ts:32-52 | without a pattern the frequency is 7 and there is no surplus adjustment, since a comparison with `undefined` is false |
| WastePredictor.ZeroFrequencyDefaults | lib/ai/predictive-waste-model.ts:33 | a pattern whose frequency is 0 also falls back to 7 |
| WastePredictor.FarFromExpiryIsSafe | lib/ai/predictive-waste-model.ts:44-61 | with at least two consumption cycles left and no surplus, the probability is 0 and the risk is low |
| WastePredictor.FarProbability | lib/ai/predictive-waste-model.ts:44-55 | the same bound on the probability alone |
| WastePredictor.BoundaryMismatchAtSevenTenths | lib/ai/predictive-waste-model.ts:57-86 | at probability exactly 0.7 the risk is high but the action is not "share" (the risk uses `< 0.7`, the action `> 0.7`) |
| WastePredictor.OtherUnitWeighsHalfKilo | lib/ai/predictive-waste-model.ts:92-97 | any unit other than kg or g weighs 0.5 kg |
| WastePredictor.ImpactScalesWithAmount | lib/ai/predictive-waste-model.ts:89-111 | for weighed units, doubling the amount doubles both impact figures |
| WastePredictor.CostAndDate | lib/ai/predictive-waste-model.ts:106-107 | the cost is the price, or 0 without one; the optimal date is the day before the whole days left, counted from `now` |
| WastePredictor.TomatoScenario | lib/ai/predictive-waste-model.ts:27-112 | a concrete item: 500 g of tomatoes two days before expiry, a 4-day pattern of 300 g (so the far band and a surplus apply) and no price, gets probability 0.225 + 0.2 = 0.425, medium risk, "consume" with the meal-plan text, 1.25 kg of CO2 and 500 l of water, and cost 0 |
| Gamification.Pow | frontend/hackathons/lib/gamification/index.ts:76 | 1.5 to a natural power is at least 1 |
| Gamification.PowGrowsLinearly | frontend/hackathons/lib/gamification/index.ts:76 | 1.5^n ≥ 1 + n/2, so the level search terminates |
| Gamification.PowStrictlyIncreasing | frontend/hackathons/lib/gamification/index.ts:76 | 1.5^m < 1.5^n for m < n |
| Gamification.PowMonotone | frontend/hackathons/lib/gamification/index.ts:76 | 1.5^m ≤ 1.5^n for m ≤ n |
| Gamification.LevelExponent | frontend/hackathons/lib/gamification/index.ts:76 | the largest exponent e with 1.5^e ≤ x, which is the rounded-down base-1.5 logarithm |
| Gamification.CalculateLevel | frontend/hackathons/lib/gamification/index.ts:74-77 | the level L is at least −9 and satisfies 1.5^(L+9) ≤ points + 100 < 1.5^(L+10) |
| Gamification.LevelIsUnique | frontend/hackathons/lib/gamification/index.ts:74-77 | any level satisfying that characterisation is the computed one |
| Gamification.LevelMonotone | frontend/hackathons/lib/gamification/index.ts:74-77 | more points never give a lower level |
| Gamification.PointsForNextLevel | frontend/hackathons/lib/gamification/index.ts:79-82 | the rounded-down 1.5^(L+10) minus 100; below exponent 0 the power is in (0, 1) and the result is −100 |
| Gamification.PowIsRatio | frontend/hackathons/lib/gamification/index.ts:81 | 1.5^n · 2^n = 3^n |
| Gamification.Pow3IsOdd | frontend/hackathons/lib/gamification/index.ts:81 | 3^n is odd |
| Gamification.WholePowScaled | frontend/hackathons/lib/gamification/index.ts:81 | a whole number equal to 1.5^n, times 2^n, is 3^n |
| Gamification.TimesPow2IsEven | frontend/hackathons/lib/gamification/index.ts:81 | a whole number times 2^n (n ≥ 1) is even |
| Gamification.PowNotWhole | frontend/hackathons/lib/gamification/index.ts:81 | 1.5^n is not a whole number for n ≥ 1, so `Math.floor` strictly lowers it |
| Gamification.PointsForNextLevelIsLastOfLevel | frontend/hackathons/lib/gamification/index.ts:74-82 | for every level L ≥ −9, the points returned for L are still at level L, and one more point reaches L + 1 |
| Gamification.RoundTripFailsAtMinusTen | frontend/hackathons/lib/gamification/index.ts:74-82 | at level −10 the round trip breaks: the points returned, −99, are already at level −9 |
| Gamification.AwardPoints | frontend/hackathons/lib/gamification/index.ts:84-107 | a listed action earns its table value times the quantity; an unlisted action earns the quantity |
| Gamification.TableValuesPositive | frontend/hackathons/lib/gamification/index.ts:86-101 | every table value is at least 5, so the `\|\| 1` fallback applies only to unlisted actions |
| Gamification.AwardIsLinear | frontend/hackathons/lib/gamification/index.ts:84-107 | the award is additive in the quantity, and the default quantity 1 gives the per-unit value |
| Gamification.AwardExamples | frontend/hackathons/lib/gamification/index.ts:86-101 | sharing twice earns 50, three unknown actions earn 3, and a completed challenge earns 100 |
| Gamification.Progress | frontend/hackathons/lib/gamification/index.ts:121 | the percentage of the threshold reached: `value / threshold` times 100 up to the threshold, 100 exactly from the threshold on, never above 100, and not negative for a non-negative value |
| Gamification.ThresholdAchievement | frontend/hackathons/lib/gamification/index.ts:114-124 | a threshold achievement is unlocked exactly when the value reaches the threshold, which is exactly when its progress is 100 |
| Gamification.WasteWarriorBronze | frontend/hackathons/lib/gamification/index.ts:114-124 | unlocked exactly from 5 kg saved; progress relative to 5 kg |
| Gamification.WasteWarriorSilver | frontend/hackathons/lib/gamification/index.ts:125-135 | unlocked exactly from 25 kg saved; progress relative to 25 kg |
| Gamification.CommunityHeroBronze | frontend/hackathons/lib/gamification/index.ts:136-146 | unlocked exactly from 5 items shared |
| Gamification.InventoryMasterBronze | frontend/hackathons/lib/gamification/index.ts:147-157 | unlocked exactly from 20 items tracked |
| Gamification.ScannerProBronze | frontend/hackathons/lib/gamification/index.ts:158-168 | always locked, at a fixed 40 % progress |
| Gamification.CheckAchievements | frontend/hackathons/lib/gamification/index.ts:109-172 | the five achievements in catalogue order; the first four are unlocked exactly at their thresholds (5 kg, 25 kg, 5 items shared, 20 items tracked) and show `Progress` of their own statistic against that threshold, so they are unlocked exactly at progress 100; the scanner one is locked at 40 |
| Gamification.AchievementsWellFormed | frontend/hackathons/lib/gamification/index.ts:109-172 | with non-negative statistics every progress is in [0, 100], and silver waste-warrior implies bronze |
| Gamification.HalfwayToBronze | frontend/hackathons/lib/gamification/index.ts:114-124 | 2.5 kg saved is 50 % of the bronze waste warrior, still locked |
| FoodItemsList.FilteredItems | frontend/hackathons/components/inventory/food-items-list.tsx:48-63 | a subsequence of the list that keeps every item passing the tab filter (at most 5 days left on "expiring") and the search on lowercased name or category as many times as it occurs, and no other item; by `Seqs.FilterIsUnique` only one list fits |
| FoodItemsList.AllWithoutQueryIsEverything | frontend/hackathons/components/inventory/food-items-list.tsx:48-63 | "all" with an empty query shows the whole list in order |
| FoodItemsList.ExpiringWithoutQuery | frontend/hackathons/components/inventory/food-items-list.tsx:48-63 | "expiring" with an empty query shows exactly the items with at most five days left |
| FoodItemsList.DashSpaceRuns | frontend/hackathons/components/inventory/food-items-list.tsx:73 | `.replace(/\s+/g, "-")` never lengthens the name; its meaning is fixed by `DashSpaceRunsShape` and `DashSplits` |
| FoodItemsList.DashSpaceRunsShape | frontend/hackathons/components/inventory/food-items-list.tsx:73 | no white space survives the replacement, and a name without white space is returned unchanged |
| FoodItemsList.DashSplits | frontend/hackathons/components/inventory/food-items-list.tsx:73 | for every text before a run, every non-empty run of white space and every text after it, the run becomes exactly one dash between the two replaced parts |
| FoodItemsList.DashOpensRun | frontend/hackathons/components/inventory/food-items-list.tsx:73 | a run of white space at the start becomes a single dash before the next word |
| FoodItemsList.DashAppend | frontend/hackathons/components/inventory/food-items-list.tsx:73 | the replacement of a concatenation is the replacement of the first part followed by that of the second, started inside a run exactly when the first part ends in one |
| FoodItemsList.NormalizedName | frontend/hackathons/components/inventory/food-items-list.tsx:73 | the name lowercased, with its white-space runs replaced by dashes |
| FoodItemsList.PassesFilter | frontend/hackathons/components/inventory/food-items-list.tsx:49-54 | the tab filter: on "expiring" at most five days left, on "all" every item |
| FoodItemsList.MatchesQuery | frontend/hackathons/components/inventory/food-items-list.tsx:55-63 | the search: an empty query keeps every item, otherwise the lowercased name or category contains the lowercased query |
| FoodItemsList.DashJoinsWords | frontend/hackathons/components/inventory/food-items-list.tsx:73 | two spaces between words become a single dash |
| FoodItemsList.FirstContained | frontend/hackathons/components/inventory/food-items-list.tsx:77 | the first listed food contained in the name, with none before it; none exactly when no listed food is contained |
| FoodItemsList.FoodImage | frontend/hackathons/components/inventory/food-items-list.tsx:72-82 | the picture of the first listed food contained in the normalised name, otherwise the placeholder with the encoded name |
| FoodItemsList.FoodImageIsListedIff | frontend/hackathons/components/inventory/food-items-list.tsx:72-82 | the picture comes from the food folder exactly when some listed food occurs in the normalised name |
| FoodItemsList.PathIsListedIff | frontend/hackathons/components/inventory/food-items-list.tsx:76-81 | the two result shapes are told apart by the folder prefix, in both directions |
| ExpiryLabels.FourBandBadge | frontend/hackathons/components/inventory/food-items-list.tsx:65-70 | destructive up to 1 day, default up to 3, secondary up to 5, outline after, each as an if-and-only-if |
| ExpiryLabels.DaysPhrase | app/inventory/page.tsx:128 | the printed day count (with a minus sign when negative, since this label has no "Expiré" branch) followed by " jour", with the plural "s" exactly when more than one day is left |
| ExpiryLabels.DaysPhraseShowsCount | components/dashboard/upcoming-expirations.tsx:41 | for every integer day count, the phrase starts with a minus sign exactly when the count is negative, then decimal digits that read back as its absolute value, then a space |
| ExpiryLabels.ExpiryLabel | frontend/hackathons/components/inventory/food-items-list.tsx:107 | "Expiré" exactly when no day is left, the day phrase otherwise |
| ExpiryLabels.LabelExamples | frontend/hackathons/components/inventory/fluid-food-item.tsx:81 | 0 and −3 days give "Expiré", 1 gives "1 jour", 4 gives "4 jours" |
| UpcomingExpirations.ProgressColor | components/dashboard/upcoming-expirations.tsx:23-27 | red up to 1 day, amber up to 3, emerald after, each as an if-and-only-if |
| UpcomingExpirations.ProgressValue | components/dashboard/upcoming-expirations.tsx:29-31 | twenty points per day below five days, capped so that it is 100 exactly from five days on |
| UpcomingExpirations.ProgressValueMonotone | components/dashboard/upcoming-expirations.tsx:29-31 | more days never give a smaller value |
| UpcomingExpirations.ThreeBandBadge | components/dashboard/upcoming-expirations.tsx:40 | destructive up to 1 day, default up to 3, outline after |
| UpcomingExpirations.ThreeBandsAgainstFour | components/dashboard/upcoming-expirations.tsx:40 | this badge differs from the inventory list's four-band badge exactly at 4 and 5 days, where the list shows secondary |
| FluidFoodItem.ExpiryColor | frontend/hackathons/components/inventory/fluid-food-item.tsx:42-47 | red up to 1 day, amber up to 3, emerald up to 5, blue after, each as an if-and-only-if |
| FluidFoodItem.BarColor | frontend/hackathons/components/inventory/fluid-food-item.tsx:120-129 | a background class, whose bands and colours are those of the icon (see the next row) |
| FluidFoodItem.BarColorMatchesExpiryColor | frontend/hackathons/components/inventory/fluid-food-item.tsx:112-129 | the bar's class is the icon's class with `text-` replaced by `bg-`, for every day count |
| FluidFoodItem.BarWidth | frontend/hackathons/components/inventory/fluid-food-item.tsx:131 | at most 100 %, exactly 100 % from 14 days on, proportional to the days below that, and not negative for a non-negative count |
| FluidFoodItem.BarWidthMonotone | frontend/hackathons/components/inventory/fluid-food-item.tsx:131 | a longer shelf life never shortens the bar |
| FluidFoodItem.BadgeAndColourAgree | frontend/hackathons/components/inventory/fluid-food-item.tsx:35-47 | two day counts get the same badge exactly when they get the same icon colour |
| FluidFoodItem.Card.constructor | frontend/hackathons/components/inventory/fluid-food-item.tsx:22-33 | the card starts collapsed and keeps its id and optional callbacks |
| FluidFoodItem.Card.ToggleExpanded | frontend/hackathons/components/inventory/fluid-food-item.tsx:93 | the chevron flips the expanded state |
| FluidFoodItem.Card.ClickEdit | frontend/hackathons/components/inventory/fluid-food-item.tsx:140 | on the open panel, `onEdit` is called with the card's id exactly when it was given |
| FluidFoodItem.Card.ClickDelete | frontend/hackathons/components/inventory/fluid-food-item.tsx:148 | on the open panel, `onDelete` is called with the card's id exactly when it was given |
| InventoryPage.VisibleItems | app/inventory/page.tsx:221-235 | a subsequence of the stock that keeps every item in the active category ("all" keeps every one) whose lowercased name contains the lowercased query, as many times as it occurs, and no other item |
| InventoryPage.InCategory | app/inventory/page.tsx:224-226 | the category test: the "all" tab keeps every item, any other tab only the items whose category equals it |
| InventoryPage.NameMatches | app/inventory/page.tsx:229-231 | the search test: an empty query keeps every item, otherwise the lower-cased name must contain the lower-cased query |
| InventoryPage.Shown | app/inventory/page.tsx:220-235 | an item is on screen exactly when it passes both the category test and the search test |
| InventoryPage.FilterEffect | app/inventory/page.tsx:221-235 | the effect's two conditional filters compute `VisibleItems` |
| InventoryPage.FilterOrderIrrelevant | app/inventory/page.tsx:221-235 | running the category and the search filters in either order gives the same list |
| InventoryPage.SearchIgnoresCategory | app/inventory/page.tsx:230-232 | the search looks at the name only: an item whose name misses the query is hidden on every tab |
| InventoryPage.Page.constructor | app/inventory/page.tsx:211-214 | the page opens on "all" with an empty query and the whole stock on screen |
| InventoryPage.Page.SelectCategory | app/inventory/page.tsx:221-235 | after a tab change the list on screen is `VisibleItems` for the new tab and the unchanged query |
| InventoryPage.Page.SetSearchQuery | app/inventory/page.tsx:221-235 | after typing, the list on screen is `VisibleItems` for the unchanged tab and the new query |
| InventoryPage.StatusBadgeFor | app/inventory/page.tsx:126 | the card's badge follows the stored status: destructive exactly for "danger", warning exactly for "warning", outline otherwise |
| InventoryPage.DialogCategories | app/inventory/page.tsx:181 | the add dialog offers every category after "all", in order, and never "all" |
| RecipesPage.VisibleRecipes | app/recipes/page.tsx:190-208 | a subsequence of the catalogue that keeps every recipe listed under the active tab whose name or one ingredient contains the query, case-insensitively, as many times as it occurs, and no other recipe |
| RecipesPage.InCategory | app/recipes/page.tsx:194-196 | outside "all", a recipe is kept exactly when its category list holds the active tab |
| RecipesPage.Matches | app/recipes/page.tsx:199-205 | an empty query keeps every recipe; otherwise the lower-cased name or some lower-cased ingredient must contain the lower-cased query |
| RecipesPage.Shown | app/recipes/page.tsx:190-208 | a recipe is on screen exactly when it passes both the tab test and the search test |
| RecipesPage.FilterEffect | app/recipes/page.tsx:190-208 | the effect's two conditional filters compute `VisibleRecipes` |
| RecipesPage.AntiGaspiTabShowsBadge | app/recipes/page.tsx:123-125 | every recipe on the Anti-Gaspi tab carries the Anti-Gaspi badge, whatever the query |
| RecipesPage.ShowsAntiGaspiBadge | app/recipes/page.tsx:123-125 | the card shows the Anti-Gaspi badge exactly when the recipe's categories include "anti-gaspi" |
| RecipesPage.IngredientPreview | app/recipes/page.tsx:154-155 | up to three ingredients joined by ", ", with "..." exactly when more are listed |
| RecipesPage.PreviewOfLongList | app/recipes/page.tsx:154-155 | a longer list's preview ends in "..." and is the preview of its first three |
| RecipesPage.PreviewExample | app/recipes/page.tsx:154-155 | four ingredients give "Pain, Lait, Oeufs..." and one gives just its name |
| RecipesPage.RecipeCard.constructor | app/recipes/page.tsx:100 | the bookmark starts from the recipe's stored flag |
| RecipesPage.RecipeCard.ToggleSaved | app/recipes/page.tsx:163 | the bookmark button flips the saved state |
| CommunityPage.VisiblePosts | app/community/page.tsx:222-246 | a subsequence of the feed that keeps every post whose type is the one mapped from the tab ("all" keeps every post) and whose title or description contains the query, case-insensitively, as many times as it occurs, and no other post |
| CommunityPage.InCategory | app/community/page.tsx:226-234 | outside "all", a post is kept exactly when its type is the one the category map gives for the tab; a tab missing from the map looks up `undefined` and keeps no post |
| CommunityPage.Matches | app/community/page.tsx:237-243 | an empty query keeps every post; otherwise the lower-cased title or the lower-cased description must contain the lower-cased query |
| CommunityPage.Shown | app/community/page.tsx:222-246 | a post is on screen exactly when it passes both the tab test and the search test |
| CommunityPage.FilterEffect | app/community/page.tsx:222-246 | the effect's two conditional filters compute `VisiblePosts` |
| CommunityPage.UnmappedTabIsEmpty | app/community/page.tsx:227-233 | a tab id missing from the type map shows no post at all |
| CommunityPage.AllTabShowsEverything | app/community/page.tsx:222-246 | "all" with an empty query shows the whole feed |
| CommunityPage.EventsTabShowsEvents | app/community/page.tsx:227-233 | on the events tab every post shown is an event |
| CommunityPage.PostCard.constructor | app/community/page.tsx:120 | a card starts not liked |
| CommunityPage.PostCard.DisplayedLikes | app/community/page.tsx:192 | the count shown is the stored likes, plus one while liked |
| CommunityPage.PostCard.ToggleLike | app/community/page.tsx:189 | the like button flips the state, and the count moves by exactly one in the matching direction |
| Cyclic.Next | components/ui/image-gallery.tsx:24 | `(i + 1) % n` stays in range: the next index, with the last wrapping to the first |
| Cyclic.Prev | components/ui/image-gallery.tsx:28 | `(i - 1 + n) % n` stays in range: the previous index, with the first wrapping to the last |
| Cyclic.PrevUndoesNext | components/ui/image-gallery.tsx:23-29 | back after forward, and forward after back, return to the same index |
| Cyclic.AdvanceIsModular | components/ui/image-gallery.tsx:23-25 | k steps forward from i land on (i + k) mod n |
| Cyclic.FullCycle | components/ui/image-gallery.tsx:23-25 | n steps forward return to the starting image |
| ImageGallery.Gallery.constructor | components/ui/image-gallery.tsx:19-21 | the gallery starts on the first image with the dialog closed |
| ImageGallery.Gallery.Render | components/ui/image-gallery.tsx:37-55 | the placeholder exactly when there is no image; otherwise the current image, an index in range, with controls exactly for two or more images |
| ImageGallery.Gallery.NextImage | components/ui/image-gallery.tsx:23-25 | the index moves to `Cyclic.Next` and the dialog state is kept |
| ImageGallery.Gallery.PrevImage | components/ui/image-gallery.tsx:27-29 | the index moves to `Cyclic.Prev` and the dialog state is kept |
| ImageGallery.Gallery.HandleKeyDown | components/ui/image-gallery.tsx:31-35 | the right arrow steps forward, the left arrow back, Escape closes the dialog, and any other key changes nothing |
| ImageGallery.Gallery.SelectImage | components/ui/image-gallery.tsx:102 | a thumbnail or dot selects its own image |
| ImageGallery.Gallery.Open | components/ui/image-gallery.tsx:52 | a click on the picture opens the dialog on the same image |
| ImageGallery.Gallery.Close | components/ui/image-gallery.tsx:121 | the close button closes the dialog on the same image |
| RecipeGallery.Gallery.constructor | components/recipes/recipe-gallery.tsx:17 | the carousel starts on the first image |
| RecipeGallery.Gallery.Render | components/recipes/recipe-gallery.tsx:27-53 | the placeholder exactly for no image, a lone viewer exactly for one, and the carousel on the current in-range index exactly for two or more |
| RecipeGallery.Gallery.NextImage | components/recipes/recipe-gallery.tsx:19-21 | the index moves to `Cyclic.Next` |
| RecipeGallery.Gallery.PrevImage | components/recipes/recipe-gallery.tsx:23-25 | the index moves to `Cyclic.Prev` |
| RecipeGallery.Gallery.SelectImage | components/recipes/recipe-gallery.tsx:81 | a dot selects its own image |
| FluidTestimonial.Carousel.constructor | components/fluid-testimonial.tsx:52-53 | the carousel starts on the first testimonial with no direction |
| FluidTestimonial.Carousel.NextTestimonial | components/fluid-testimonial.tsx:56-59 | the direction becomes forward and the index moves to `Cyclic.Next` over the four entries |
| FluidTestimonial.Carousel.PrevTestimonial | components/fluid-testimonial.tsx:61-64 | the direction becomes backward and the index moves to `Cyclic.Prev` |
| FluidTestimonial.Carousel.SelectTestimonial | components/fluid-testimonial.tsx:134-137 | a dot selects its entry, sliding forward exactly when the target lies after the current one and backward otherwise, the current one included |
| FluidTestimonial.EnterOffset | components/fluid-testimonial.tsx:67-70 | the new slide enters from +1000 exactly for a forward direction, from −1000 otherwise |
| FluidTestimonial.ExitOffset | components/fluid-testimonial.tsx:75-78 | the old slide leaves towards +1000 exactly for a backward direction, towards −1000 otherwise |
| FluidTestimonial.OffsetsOpposite | components/fluid-testimonial.tsx:66-79 | entry and exit are on opposite sides exactly when a direction has been set; at the initial direction 0 both are on the left |
| Zoom.ZoomIn | components/ui/image-viewer.tsx:20-22 | a quarter step up, never above 3 |
| Zoom.ZoomOut | components/ui/image-viewer.tsx:24-26 | a quarter step down, never below 0.5 |
| Zoom.ZoomStaysOnGrid | components/ui/image-viewer.tsx:20-26 | from a reachable scale (between 0.5 and 3, a whole number of quarters) both buttons reach a reachable scale |
| Zoom.ResetOnGrid | components/ui/image-viewer.tsx:33 | the reset scale 1 is reachable |
| Zoom.ZoomOutUndoesZoomIn | components/ui/image-viewer.tsx:20-26 | below the maximum, zooming in then out returns to the same scale |
| ImageViewer.Rotate | components/ui/image-viewer.tsx:28-30 | a rotation angle always lies in [0, 360) |
| ImageViewer.RotateQuarterTurns | components/ui/image-viewer.tsx:28-30 | from a quarter turn the button reaches the next one clockwise, 270 wrapping to 0 |
| ImageViewer.FourRotationsAreIdentity | components/ui/image-viewer.tsx:28-30 | four presses are a full turn |
| ImageViewer.Viewer.constructor | components/ui/image-viewer.tsx:15-18 | the viewer starts closed, at scale 1, unrotated |
| ImageViewer.Viewer.ZoomIn | components/ui/image-viewer.tsx:20-22 | the scale becomes `Zoom.ZoomIn` of the old scale; rotation and dialog kept |
| ImageViewer.Viewer.ZoomOut | components/ui/image-viewer.tsx:24-26 | the scale becomes `Zoom.ZoomOut` of the old scale; rotation and dialog kept |
| ImageViewer.Viewer.RotateClockwise | components/ui/image-viewer.tsx:28-30 | the rotation becomes `Rotate` of the old one; scale and dialog kept |
| ImageViewer.Viewer.Reset | components/ui/image-viewer.tsx:32-35 | scale 1 and no rotation; the dialog is kept |
| ImageViewer.Viewer.ImageClick | components/ui/image-viewer.tsx:37-43 | with an `onClick` prop the click is delegated and the dialog is left as it was; without one the dialog opens |
| ImageViewer.Viewer.SetOpen | components/ui/image-viewer.tsx:54 | the dialog's open-change sets the open state, nothing else |
| Image360Viewer.Viewer.constructor | components/ui/image-360-viewer.tsx:16-19 | the viewer starts on the first frame, not dragging, at x 0 and scale 1 |
| Image360Viewer.Viewer.Press | components/ui/image-360-viewer.tsx:22-25 | a press starts a drag anchored at the cursor's x |
| Image360Viewer.Viewer.Drag | components/ui/image-360-viewer.tsx:27-60 | during a drag, a move of more than 10 px to the right shows the previous frame and one to the left the next, re-anchoring at the cursor; smaller moves, and moves without a drag, change nothing |
| Image360Viewer.Viewer.Release | components/ui/image-360-viewer.tsx:40-42 | release (also on touch end and mouse leave) ends the drag and keeps the frame |
| Image360Viewer.Viewer.ZoomIn | components/ui/image-360-viewer.tsx:66-68 | the scale becomes `Zoom.ZoomIn` of the old scale; the frame and drag are kept |
| Image360Viewer.Viewer.ZoomOut | components/ui/image-360-viewer.tsx:70-72 | the scale becomes `Zoom.ZoomOut` of the old scale; the frame and drag are kept |
| Image360Viewer.Viewer.ResetZoom | components/ui/image-360-viewer.tsx:74-76 | only the scale returns to 1; the frame stays |
| ShoppingList.PriorityClass | frontend/hackathons/components/dashboard/shopping-list.tsx:32-43 | one colour per known priority, each as an if-and-only-if, and the empty class exactly for any other value |
| ShoppingList.Toggled | frontend/hackathons/components/dashboard/shopping-list.tsx:28-30 | the id is ticked afterwards exactly when it was not before, every other id keeps its state, and a list without duplicates stays without duplicates |
| ShoppingList.FilterKeepsDistinct | frontend/hackathons/components/dashboard/shopping-list.tsx:29 | removing an id from a list without duplicates leaves a list without duplicates |
| ShoppingList.FilterDropsLast | frontend/hackathons/components/dashboard/shopping-list.tsx:29 | removing an id just appended to a list without it restores the list |
| ShoppingList.ToggleTwice | frontend/hackathons/components/dashboard/shopping-list.tsx:28-30 | two toggles of the same id restore the set of ticked ids, and the exact list when the id was not ticked |
| ShoppingList.List.constructor | frontend/hackathons/components/dashboard/shopping-list.tsx:25-26 | the list starts with the given items and nothing ticked |
| ShoppingList.List.ToggleItem | frontend/hackathons/components/dashboard/shopping-list.tsx:28-30 | the ticked ids become `Toggled` of the old ones, the items are untouched, and no id is ever ticked twice |
| SmartRecipeGenerator.ToggleIngredient | frontend/hackathons/components/recipes/smart-recipe-generator.tsx:154-158 | the entries with the id have their selection flipped; all others are unchanged |
| SmartRecipeGenerator.TogglePreference | frontend/hackathons/components/recipes/smart-recipe-generator.tsx:160-164 | the same for dietary preferences |
| SmartRecipeGenerator.ToggleIngredientTwice | frontend/hackathons/components/recipes/smart-recipe-generator.tsx:154-158 | toggling the same ingredient twice restores the list |
| SmartRecipeGenerator.TogglePreferenceTwice | frontend/hackathons/components/recipes/smart-recipe-generator.tsx:160-164 | toggling the same preference twice restores the list |
| SmartRecipeGenerator.ToggleIngredientsCommute | frontend/hackathons/components/recipes/smart-recipe-generator.tsx:154-158 | toggling two ingredients in either order gives the same list |
| SmartRecipeGenerator.SelectAllExpiring | frontend/hackathons/components/recipes/smart-recipe-generator.tsx:166-170 | every expiring ingredient becomes selected and the others are unchanged |
| SmartRecipeGenerator.SelectAllExpiringIdempotent | frontend/hackathons/components/recipes/smart-recipe-generator.tsx:166-170 | a second use of the shortcut changes nothing |
| SmartRecipeGenerator.SelectAllExpiringOnlyAdds | frontend/hackathons/components/recipes/smart-recipe-generator.tsx:166-170 | afterwards every expiring ingredient is selected and no earlier selection is lost |
| SmartRecipeGenerator.Selected | frontend/hackathons/components/recipes/smart-recipe-generator.tsx:173 | a subsequence of the ingredients that keeps every selected entry as many times as it occurs and no unselected one, so its length, which the generate guard reads, is the number of selected entries |
| SmartRecipeGenerator.ProgressStep | frontend/hackathons/components/recipes/smart-recipe-generator.tsx:190-196 | one tick adds 5 points below 95 and nothing from 95 on |
| SmartRecipeGenerator.TicksFromZero | frontend/hackathons/components/recipes/smart-recipe-generator.tsx:185-197 | from 0, k ticks give 5k points, capped at 95, so the bar never reaches 100 while generating |
| SmartRecipeGenerator.Ticks | frontend/hackathons/components/recipes/smart-recipe-generator.tsx:189-197 | the progress after k interval ticks, one `ProgressStep` each |
| SmartRecipeGenerator.Generator.constructor | frontend/hackathons/components/recipes/smart-recipe-generator.tsx:52-58 | the generator starts idle at progress 0 with no recipes |
| SmartRecipeGenerator.Generator.ToggleIngredientClick | frontend/hackathons/components/recipes/smart-recipe-generator.tsx:154-158 | the ingredients become `ToggleIngredient` of the old ones; nothing else changes |
| SmartRecipeGenerator.Generator.TogglePreferenceClick | frontend/hackathons/components/recipes/smart-recipe-generator.tsx:160-164 | the preferences become `TogglePreference` of the old ones; nothing else changes |
| SmartRecipeGenerator.Generator.SelectAllExpiringClick | frontend/hackathons/components/recipes/smart-recipe-generator.tsx:166-170 | the ingredients become `SelectAllExpiring` of the old ones; nothing else changes |
| SmartRecipeGenerator.Generator.StartGeneration | frontend/hackathons/components/recipes/smart-recipe-generator.tsx:172-186 | with fewer than two selected ingredients, the destructive "Sélection insuffisante" toast and no state change; otherwise generation starts at progress 0 with no recipes |
| SmartRecipeGenerator.Generator.ProgressTick | frontend/hackathons/components/recipes/smart-recipe-generator.tsx:189-197 | a tick sets the progress to `ProgressStep` of the old value and clears the interval exactly from 95 on |
| CommunityMap.ClampPercent | components/community/community-map.tsx:58 | the result lies in [0, 100]; values inside are kept, those below become 0 and those above become 100 |
| CommunityMap.NormalizeCoordinates | components/community/community-map.tsx:43-59 | both map coordinates lie in [0, 100] |
| CommunityMap.CentreIsMiddle | components/community/community-map.tsx:47-58 | the centre of Tunis is drawn in the middle of the map |
| CommunityMap.NearCentreIsUnclamped | components/community/community-map.tsx:51-58 | within a quarter degree of the centre nothing is clamped: 200 % per degree east and north |
| CommunityMap.ProjectionMonotone | components/community/community-map.tsx:55-58 | further east is never further left, and further north is never lower |
| CommunityMap.Map.constructor | components/community/community-map.tsx:38 | nothing is selected at first |
| CommunityMap.Map.MarkerClick | components/community/community-map.tsx:61-63 | the clicked item becomes the selection |
| CommunityMap.Map.InfoCard | components/community/community-map.tsx:143 | the info card is drawn exactly while an item is selected, and shows that item |
| CommunityMap.Map.IsHighlighted | components/community/community-map.tsx:98 | a marker wears the highlight ring exactly when its id is the selected item's |
| Text.Lower | frontend/hackathons/components/inventory/food-items-list.tsx:58 | `toLowerCase` keeps the length and lower-cases each character |
| Text.LowerChar | frontend/hackathons/components/inventory/food-items-list.tsx:58 | one character of `toLowerCase`: A–Z map to a–z, every other character is kept |
| Text.StartsWith | frontend/hackathons/app/assistant/page.tsx:181 | `startsWith`: the prefix is an initial segment of the string, the test the tag search applies at each position |
| Text.IsSpace | frontend/hackathons/components/inventory/food-items-list.tsx:73 | the characters `\s` and `trim` treat as white space, restricted to ASCII: space, tab, line feed, carriage return, vertical tab, form feed |
| Text.IndexOfSpec | frontend/hackathons/app/assistant/page.tsx:181 | the position found is a match with none before it, and finding nothing means there is no match |
| Text.IndexOfFindsContains | frontend/hackathons/app/assistant/page.tsx:181 | a search from the start succeeds exactly when the pattern occurs |
| Text.IndexOf | frontend/hackathons/app/assistant/page.tsx:181 | the search from a position: a match found lies at or after that position and fits in the text |
| Text.Contains | frontend/hackathons/components/inventory/food-items-list.tsx:58 | `includes`: the pattern occurs at some position |
| Text.IsBlank | frontend/hackathons/app/assistant/page.tsx:120 | `!s.trim()`: the input is empty or only white space |
| Text.Join | app/recipes/page.tsx:154 | `join(sep)`: no pieces give the empty string, a single piece is returned as it is, and otherwise the result starts with the first piece and is as long as all pieces plus one separator between each two; JoinSnoc gives the order of the rest |
| Text.JoinSnoc | app/recipes/page.tsx:154 | joining one more piece appends the separator and the piece: with Join's length and prefix clauses this fixes the order of the pieces |
| Text.NatToString | frontend/hackathons/app/assistant/page.tsx:123 | `toString` of a natural number: decimal digits, with no leading zero |
| Text.NatToStringRoundTrip | frontend/hackathons/app/assistant/page.tsx:123 | the printed digits read back as the number, so different numbers print differently |
| Text.IntToString | frontend/hackathons/components/inventory/fluid-food-item.tsx:81 | a template literal's integer: never empty, a minus sign first exactly when negative, and the digits after it read back as the absolute value |
| Seqs.Filter | app/inventory/page.tsx:226 | `filter` gives a subsequence in which every passing element occurs exactly as often as in the input and no failing element occurs |
| Seqs.FilterIsUnique | app/inventory/page.tsx:226 | `Filter`'s contract has one solution: any subsequence with those element counts is `Filter(s, p)` itself |
| Seqs.SubsequenceMultiset | app/inventory/page.tsx:226 | a subsequence never holds an element more often than the sequence it comes from |
| Seqs.FilterFilter | app/inventory/page.tsx:222-232 | two successive filters keep exactly what one filter on both tests keeps |
| Seqs.FilterCommutes | app/inventory/page.tsx:222-232 | two filters commute: either order keeps the same elements in the same order |
| Seqs.StagedFilter | app/inventory/page.tsx:222-232 | filters applied only when their condition holds compute one filter on the combined test |
| AssistantPage.SplitLines | frontend/hackathons/app/assistant/page.tsx:173 | `split("\n")`: at least one piece, none containing a newline, and joining them with newlines gives the chunk back |
| AssistantPage.TagsStartUniquely | frontend/hackathons/app/assistant/page.tsx:181-186 | the first characters of `<think>` and `</think>` do not recur in them, so matches of either cannot overlap |
| AssistantPage.FoundFirst | frontend/hackathons/app/assistant/page.tsx:181-186 | a tag appended to text without it is first found where it was appended |
| AssistantPage.StripBlocks | frontend/hackathons/app/assistant/page.tsx:186 | removing the think blocks never lengthens the text; its meaning is fixed by the three lemmas below |
| AssistantPage.StripThink | frontend/hackathons/app/assistant/page.tsx:186 | `StripBlocks` with the `<think>` and `</think>` tags |
| AssistantPage.ExtractBlock | frontend/hackathons/app/assistant/page.tsx:181-184 | the inner text of the first complete block, which fits in the text with both tags; none when there is no opening tag |
| AssistantPage.ExtractThink | frontend/hackathons/app/assistant/page.tsx:181 | `ExtractBlock` with the `<think>` and `</think>` tags |
| AssistantPage.NoBlockPassesThrough | frontend/hackathons/app/assistant/page.tsx:181-186 | text without an opening tag is displayed unchanged and has no thinking part |
| AssistantPage.UnclosedIsKept | frontend/hackathons/app/assistant/page.tsx:181-186 | an opening tag with no closing tag after it removes nothing (the whole text is shown) and gives no thinking part, as while a block is still streaming |
| AssistantPage.FirstBlockRemoved | frontend/hackathons/app/assistant/page.tsx:181-186 | for the first opening tag and the nearest closing tag after it, the display keeps the text before the block and strips the text after it, and the thinking part is the block's inner text |
| AssistantPage.ExtractBlockStable | frontend/hackathons/app/assistant/page.tsx:181-184 | once a complete block is present, more tokens do not change the thinking part |
| AssistantPage.ThinkingOf | frontend/hackathons/app/assistant/page.tsx:181-184 | the thinking text shown is the first block's inner text when it is not empty, and nothing otherwise |
| AssistantPage.ThinkingUpdate | frontend/hackathons/app/assistant/page.tsx:179-184 | the page's per-token update rule (set only on a non-empty match) keeps the thinking text equal to `ThinkingOf` of the whole response so far |
| AssistantPage.SetContent | frontend/hackathons/app/assistant/page.tsx:189-193 | the bubbles with the reply's id get the new content and every other message is unchanged |
| AssistantPage.SetContentTwice | frontend/hackathons/app/assistant/page.tsx:189-193 | a later update of the same bubble overrides an earlier one |
| AssistantPage.TokenOf | frontend/hackathons/app/assistant/page.tsx:175-177 | a line adds nothing exactly when it does not parse or its token is empty |
| AssistantPage.LinesResponse | frontend/hackathons/app/assistant/page.tsx:173-179 | the text one chunk adds to the response: the tokens of its lines in order, a line that fails to parse or has no token adding nothing |
| AssistantPage.Response | frontend/hackathons/app/assistant/page.tsx:168-198 | the response after the given chunks: each chunk split on newlines on its own and the tokens of its lines appended in order |
| AssistantPage.Display | frontend/hackathons/app/assistant/page.tsx:186-193 | the messages on screen for a response: nothing changes before the first token; afterwards only the bubbles with the reply's id change, and they show the response without think blocks |
| AssistantPage.AfterRequest | frontend/hackathons/app/assistant/page.tsx:150-212 | the messages after the request: the displayed reply, followed by exactly one error notice exactly when the request failed |
| AssistantPage.ErrorMessage | frontend/hackathons/app/assistant/page.tsx:201-208 | the assistant message appended when the request fails, with the fixed French error text and a fresh id |
| AssistantPage.Delivered | frontend/hackathons/app/assistant/page.tsx:163-198 | the response text a request delivered: empty when no stream came back, otherwise the tokens of every chunk received |
| AssistantPage.Fails | frontend/hackathons/app/assistant/page.tsx:163-199 | the request ends in the catch branch exactly when no stream came back or the stream broke after its last chunk |
| AssistantPage.Conversation | frontend/hackathons/app/assistant/page.tsx:119-213 | the message list after one send: the earlier messages, the question, the reply bubble as AfterRequest leaves it, and the error message on failure; its shape is proved by ConversationShape |
| AssistantPage.OnToken | frontend/hackathons/app/assistant/page.tsx:179-193 | after a non-empty token the response grows by it, the bubble shows the response without think blocks, and the thinking text is `ThinkingOf` the response |
| AssistantPage.OnLine | frontend/hackathons/app/assistant/page.tsx:174-197 | a line adds its parsed token, or nothing when parsing fails or the token is empty, keeping the same display and thinking invariants |
| AssistantPage.ReadChunk | frontend/hackathons/app/assistant/page.tsx:173-197 | after a chunk's lines the response has grown by their tokens in order, with the display and thinking invariants kept |
| AssistantPage.ReadStream | frontend/hackathons/app/assistant/page.tsx:165-198 | after reading every chunk the response is the tokens of all lines in order, the bubble shows it without think blocks, and the thinking text is its first block's inner text |
| AssistantPage.Request | frontend/hackathons/app/assistant/page.tsx:150-212 | without a stream, the error notice is appended; with one, the delivered reply is displayed, followed by the error notice if the stream failed |
| AssistantPage.ClockIdsDiffer | frontend/hackathons/app/assistant/page.tsx:123-137 | an id printed from an earlier clock reading never equals the reply's id, which is one past a later reading |
| AssistantPage.ConversationShape | frontend/hackathons/app/assistant/page.tsx:119-213 | after one send the earlier messages are kept, then come the question, the reply bubble showing the delivered text without think blocks, and the error notice exactly when the request failed |
| AssistantPage.Chat.constructor | frontend/hackathons/app/assistant/page.tsx:90-103 | the chat starts with the greeting alone, an empty input, nothing loading or recording, and no memory |
| AssistantPage.Chat.SetInput | frontend/hackathons/app/assistant/page.tsx:312 | typing sets the input; nothing else changes |
| AssistantPage.Chat.SendMessage | frontend/hackathons/app/assistant/page.tsx:119-213 | a blank input changes nothing; otherwise the messages become the conversation after one send, the question is added to the memory, the input is cleared, loading ends and the thinking text is that of the delivered reply |
| AssistantPage.Chat.KeyPress | frontend/hackathons/app/assistant/page.tsx:215-220 | Enter without Shift sends, with the same outcomes as `SendMessage`; any other key changes nothing |
| AssistantPage.Chat.ToggleRecording | frontend/hackathons/app/assistant/page.tsx:222-230 | the microphone flips the recording state, and the timer is armed exactly when a recording starts |
| AssistantPage.Chat.RecordingTimerFires | frontend/hackathons/app/assistant/page.tsx:225-228 | when the timer fires, recording stops and the input receives the fixed transcription |

## Left out

- Floating point: prices, weights, probabilities, progress values and coordinates are exact
  reals. Rounding in `0.7 - d / f`, `x / 1000`, `(lng - center) * 200` and so on, NaN, and
  infinities are not modelled. The zoom values are exact in binary, so there both agree.
- Gamification.CalculateLevel: `Math.log(p + 100) / Math.log(1.5)` is characterised exactly,
  as the largest k with 1.5^k ≤ p + 100. A floating-point quotient that lands just below a
  whole number is not modelled. The function requires `points > -100`, where the logarithm
  of a non-positive number would give −Infinity or NaN.
- Gamification.PointsForNextLevelIsLastOfLevel: the round trip with `calculateLevel` is
  proved for levels from −9 up. Below that it fails; `RoundTripFailsAtMinusTen` shows the
  first case.
- Gamification.AwardPoints: the table is a plain JavaScript object, so an action named after an
  inherited property ("toString", "constructor", "hasOwnProperty", "__proto__") reads a function
  or an object there and the source's award is NaN. The model treats such names like any
  unlisted action and awards the quantity. Quantities are integers; fractional quantities are
  not modelled.
- Gamification.TableValuesPositive: states that every entry is at least 5, not that there are
  exactly twelve entries. The table itself is the constant `PointValues`.
- Gamification: `console.log` in `awardPoints` is left out. So are the fixed mock data
  returned by `getCurrentChallenges` and `getLeaderboard`, which contain no logic.
- WastePredictor: the `seasonalFactors` and `userPreferences` parameters are unused by the
  source and are not modelled. `new Date().getTime()` and `Date.now()` are the one parameter
  `now`; the source reads the clock twice, and the model assumes both readings agree.
- WastePredictor.DaysUntilExpiry: dates are millisecond integers. Time zones and invalid
  dates are not modelled.
- Text.Lower: `toLowerCase` is modelled for ASCII letters only. Accented capitals (É, Œ)
  keep their case. White space (`\s` and `trim`) is the ASCII set only.
- FoodItemsList.FoodImage: `encodeURIComponent` is a parameter; its escaping rules are not
  modelled.
- AssistantPage: the `fetch` call, the stream reader and the UTF-8 decoder are the
  `StreamOutcome` value, and the model reads its chunks in order. Each chunk's lines are parsed
  on their own, as in the source: a JSON line split across two chunks is not joined.
- AssistantPage: `JSON.parse(line).response` is a parameter returning the token or nothing.
  Non-string tokens and the cost of the `try`/`catch` per line are not modelled.
- AssistantPage: the prompt text sent to the model is not modelled. It quotes `userMemory`
  as it was before the send. The message timestamps, which are only displayed, are also
  not modelled.
- AssistantPage: the `console.warn` and `console.error` calls, scrolling, and the disabled
  input while loading are not modelled. The model runs a whole send as one step, so a second
  send during a stream cannot happen in it.
- AssistantPage.Chat.ToggleRecording: the 3-second `setTimeout` is a separate method,
  `RecordingTimerFires`. The model does not schedule it.
- AssistantPage.StripBlocks: the `<think>` regular expressions are modelled as searches for
  the two literal tags: the first opening tag, then the nearest closing tag after it.
  The lemmas assume tags whose first character does not recur, which holds for `<think>`
  and `</think>`.
- SmartRecipeGenerator: the interval and the 3-second wait are not scheduled.
  `ProgressTick` is one tick. The mock recipes produced after the wait, their display, the
  tabs and the preparation-time slider are not modelled: the source file ends partway
  through the mock recipe list.
- Image360Viewer.Viewer.constructor: requires at least one image. With none, the source's
  `% images.length` divides by zero. The rendering part of the file is cut short and is not
  modelled.
- Image360Viewer: the `mouseleave` listener is modelled as a call to `Release`. Registering
  and removing the listener is not modelled.
- InventoryPage, RecipesPage, CommunityPage: the fixed catalogues, animation variants,
  `isLoaded` and the JSX layout are data or presentation and are not modelled. The recipes
  and community pages have the filter effect but no page class: their handlers only set
  the tab or the query, as on the inventory page.
- FluidFoodItem, ExpiryLabels: day counts are integers. A fractional `daysLeft` is not
  modelled.
- CommunityMap: `handleContactUser` only logs and is not modelled. The user-location marker
  uses the same projection.
