# Ad personalization engine, modelled in Dafny

This project models the ranking core of a small social-feed application that
shows personalised ads. The core has three layers.

- **Behavior provider.** It keeps one viewer's append-only history of ad
  views and clicks (`trackView`, `trackClick`, `clearBehavior`). It turns that
  history into one normalised 0..100 preference per ad category
  (`getCategoryPreferences`).
- **Personalization engine.** It scores each ad from five signals
  (`scoreAd`):
  - category preference;
  - priority;
  - earlier engagement;
  - tag overlap with viewed ads;
  - a recency penalty.

  `getPersonalizedAds` ranks the ads by score and then applies
  `applyDiversity`. This is a greedy pass capped at ceil(limit/3) ads per
  category, followed by a backfill pass.

  The engine also has a priority-driven cold-start list
  (`getColdStartAds`) and two small helpers (`getTrendingAds`,
  `getAdsByCategory`).
- **Feed.** Its memoised body chooses the cold-start list for a viewer with
  no history and the personalized list otherwise.

Modules, one per part of the program:

| module | models |
|---|---|
| `Types` | the record types of `src/types/index.ts` |
| `JsMath` | `Math.round`, the clamp in `scoreAd`, `Math.ceil(limit / 3)`, `Math.max(..., 1)` |
| `Sorting` | `Array.prototype.sort` with a descending comparator, as a stable insertion sort |
| `Preferences` | `getCategoryPreferences`: four accumulation loops over a score record, then normalise and sort |
| `Behavior` | the history state as a class whose methods append or reset |
| `Scoring` | `scoreAd` and the `getAdById` lookup |
| `Ranking` | `getPersonalizedAds`, `applyDiversity`, `getColdStartAds`, `getTrendingAds`, `getAdsByCategory` |
| `Feed` | the `useMemo` body of the feed component |
| `Catalog` | the fifteen-ad mock catalog and the cold-start ranking over it |

The source's loops are `method`s, each proved equal to a specification
function. These are `ApplyDiversity`, `GetColdStartAds`,
`ComputeCategoryPreferences` with its four passes, and the in-place
`GetTrendingAds`. The lemmas are stated about those functions. Each method's
`ensures` links it to its function.

Parameters stand in for what the program takes from its environment:

- The clock (`Date.now()`) is the parameter `now`, in epoch milliseconds.
- The recency decay `Math.exp(-ageInDays / 7)` is the parameter
  `decay: int -> real`, applied to an event's age in milliseconds. The lemmas
  that need it assume only that it is positive (`ValidDecay`).
- The engine's hidden static ad cache, filled by `setAdCache`, is the explicit
  parameter `cache`.

Arithmetic is over exact reals.

## Model

| member | source | states |
|---|---|---|
| Types.CategoryIndex | src/types/index.ts:3 | every category has a position in the eight-value enumeration |
| Types.AllCategoriesDistinct | src/types/index.ts:3 | the category enumeration is closed: exactly eight distinct values, and every category is among them |
| JsMath.Round | src/utils/personalizationEngine.ts:80 | Math.round yields the integer n with n - 0.5 <= x < n + 0.5 (halves go up) |
| JsMath.Clamp | src/utils/personalizationEngine.ts:76 | the result lies in [lo, hi], equals x inside the range and the nearer bound outside it |
| JsMath.CeilThird | src/utils/personalizationEngine.ts:114 | the per-category cap c is the least integer with n <= 3c |
| JsMath.MaxWithFloor | src/context/BehaviorContext.tsx:115 | the divisor is at least the floor 1, at least every running score, and equal to the floor or to one of the scores |
| JsMath.RoundBounds | src/utils/personalizationEngine.ts:76-80 | rounding a value between two integers stays between them |
| Sorting.Insert | src/utils/personalizationEngine.ts:100 | one insertion step of the sort adds exactly that element (length + 1, multiset grows by it) |
| Sorting.InsertSorted | src/utils/personalizationEngine.ts:100 | inserting into a descending list keeps it descending |
| Sorting.SortDesc | src/utils/personalizationEngine.ts:100 | the comparator sort returns a permutation of its input in descending key order |
| Sorting.InsertWithKey | src/utils/personalizationEngine.ts:100 | an insertion step puts the new element ahead of every element already there with the same key, and leaves the other keys' sub-lists unchanged |
| Sorting.InsertKeepsDistinct | src/utils/personalizationEngine.ts:100 | inserting an element whose projection is new keeps the projections distinct |
| Sorting.ConsKeepsDistinct | src/utils/personalizationEngine.ts:100 | putting an element whose projection is new in front of a list with distinct projections keeps them distinct |
| Sorting.SortDescStable | src/utils/personalizationEngine.ts:100 | the sort is stable: for every key, the elements with that key keep their input order |
| Sorting.SortDescKeepsDistinct | src/utils/personalizationEngine.ts:100 | sorting keeps distinct ids (or categories) distinct |
| Sorting.WithKey | src/utils/personalizationEngine.ts:100 | the sub-list of elements with one key is no longer than the list, and all its elements carry that key |
| Preferences.ViewDurationPoints | src/context/BehaviorContext.tsx:89-91 | definition: the points the first loop gives a category, a fifth of the duration of each of its views; see AddViewDurations |
| Preferences.ClickPoints | src/context/BehaviorContext.tsx:93-95 | definition: the points the second loop gives a category, 5 per click; see AddClicks |
| Preferences.ViewDecayPoints | src/context/BehaviorContext.tsx:99-107 | definition: the points the third loop gives a category, half the decay factor of each view; see AddViewDecay |
| Preferences.ClickDecayPoints | src/context/BehaviorContext.tsx:99-112 | definition: the points the fourth loop gives a category, twice the decay factor of each click; see AddClickDecay |
| Preferences.RunningScore | src/context/BehaviorContext.tsx:77-112 | definition: a category's score once all four loops have run; see ViewAddsToOwnCategory, ClickAddsToOwnCategory, SingleClickRunningScore |
| Preferences.MaxScore | src/context/BehaviorContext.tsx:115 | definition: the divisor, the largest running score but at least 1; see MaxWithFloor, MaxCategoryScoresHundred |
| Preferences.Normalise | src/context/BehaviorContext.tsx:120 | definition: a running score scaled to the divisor and rounded; see NormaliseInRange, NormaliseAtMostHundred |
| Preferences.ZeroScores | src/context/BehaviorContext.tsx:77-86 | the score record starts with every one of the eight categories at 0 |
| Preferences.EveryCategoryIsKey | src/context/BehaviorContext.tsx:77-86 | a record holding the eight literal keys has an entry for every category |
| Preferences.AddViewDurations | src/context/BehaviorContext.tsx:89-91 | after the first loop each category holds its old value plus duration/5 summed over its own views |
| Preferences.AddClicks | src/context/BehaviorContext.tsx:93-95 | after the second loop each category gains 5 per click recorded for it |
| Preferences.AddViewDecay | src/context/BehaviorContext.tsx:104-107 | after the third loop each category gains half the decay factor of each of its views |
| Preferences.AddClickDecay | src/context/BehaviorContext.tsx:109-112 | after the fourth loop each category gains twice the decay factor of each of its clicks |
| Preferences.ComputeCategoryPreferences | src/context/BehaviorContext.tsx:76-125 | the imperative aggregation (four loops, normalise, sort) returns exactly CategoryPreferences |
| Preferences.RunningScores | src/context/BehaviorContext.tsx:115 | the record's values are one running score per category |
| Preferences.Normalised | src/context/BehaviorContext.tsx:117-122 | normalising yields one preference per category, in enumeration order |
| Preferences.UnsortedPreferences | src/context/BehaviorContext.tsx:117-122 | before sorting there is one preference per category, in enumeration order |
| Preferences.CategoryPreferences | src/context/BehaviorContext.tsx:124 | the result has eight entries, is sorted by descending score, and is a permutation of the unsorted preferences |
| Preferences.OnePerCategory | src/context/BehaviorContext.tsx:77-122 | exactly one entry per category, even with no events: all eight present, none twice |
| Preferences.EqualScoresKeepEnumerationOrder | src/context/BehaviorContext.tsx:124 | categories that tie on score stay in enumeration order (stable sort) |
| Preferences.NoEventsNoPoints | src/context/BehaviorContext.tsx:89-112 | with no views and no clicks every running score is 0 |
| Preferences.EmptyHistoryAllZero | src/context/BehaviorContext.tsx:115-120 | with no views and no clicks every preference is 0, because the divisor floor is 1 |
| Preferences.ViewPointsNonNegative | src/context/BehaviorContext.tsx:89-107 | with non-negative durations and a positive decay, views never lower a running score |
| Preferences.ClickPointsNonNegative | src/context/BehaviorContext.tsx:93-112 | with a positive decay, clicks never lower a running score |
| Preferences.NormaliseInRange | src/context/BehaviorContext.tsx:120 | a running score between 0 and the divisor normalises into 0..100, and the divisor itself to 100 |
| Preferences.NormaliseAtMostHundred | src/context/BehaviorContext.tsx:115-120 | a running score no larger than the divisor never normalises above 100, even when negative |
| Preferences.PreferenceScoresInRange | src/context/BehaviorContext.tsx:115-121 | every preference score lies in 0..100 |
| Preferences.TopCategoryScoresHundred | src/context/BehaviorContext.tsx:115-124 | once some running score reaches 1, the first (highest) preference is exactly 100, whatever the durations and the decay |
| Preferences.SomeCategoryScoresHundred | src/context/BehaviorContext.tsx:115-120 | once some running score reaches 1, some category scores exactly 100 |
| Preferences.NoScoreAboveHundred | src/context/BehaviorContext.tsx:115-120 | no category scores above 100, whatever the durations and the decay |
| Preferences.MaxCategoryScoresHundred | src/context/BehaviorContext.tsx:115-120 | every category whose running score equals the divisor (the largest score, floored at 1) scores exactly 100, whatever the durations and the decay |
| Preferences.SingleClickRunningScore | src/context/BehaviorContext.tsx:93-112 | after one click and nothing else, its category's running score is 5 + 2·decay and every other is 0 |
| Preferences.SingleClick | src/context/BehaviorContext.tsx:115-120 | after one click in category X and nothing else, X scores 100 and every other category 0 |
| Preferences.ViewAddsToOwnCategory | src/context/BehaviorContext.tsx:89-107 | one more view adds duration/5 + 0.5·decay to its own category and nothing to any other |
| Preferences.ClickAddsToOwnCategory | src/context/BehaviorContext.tsx:93-112 | one more click adds 5 + 2·decay to its own category and nothing to any other |
| Behavior.BehaviorStore.constructor | src/context/BehaviorContext.tsx:27-31 | the initial history is empty, so the feed starts on its cold-start path |
| Behavior.BehaviorStore.TrackView | src/context/BehaviorContext.tsx:47-59 | appends exactly one view with the given id, category, clock reading and duration (default 1); clicks unchanged; the old history is a prefix |
| Behavior.BehaviorStore.TrackClick | src/context/BehaviorContext.tsx:62-73 | appends exactly one click; views unchanged; the old history is a prefix |
| Behavior.BehaviorStore.ClearBehavior | src/context/BehaviorContext.tsx:128-135 | views, clicks and preferences all become empty |
| Scoring.CategorySignal | src/utils/personalizationEngine.ts:19-27 | definition: half the first preference score of the ad's category, with the high-interest reason above 25 points; see HighInterestReason |
| Scoring.PriorityPoints | src/utils/personalizationEngine.ts:30-31 | definition: the priority weight; see PriorityPointsInRange |
| Scoring.EngagementSignal | src/utils/personalizationEngine.ts:33-49 | definition: -10, -5, +15 or 0 points by earlier clicks and views of this ad; see EngagementReasons, NeutralZone |
| Scoring.TagSignal | src/utils/personalizationEngine.ts:51-62 | definition: 3 points per ad tag seen in a viewed ad; see TagReason, TagReasonNamesFirstTwo |
| Scoring.RecencySignal | src/utils/personalizationEngine.ts:64-73 | definition: minus 10 per view of this ad under 24 hours old; see RecencyPerView, ShownRecentlyReason |
| Scoring.RawScore | src/utils/personalizationEngine.ts:16-73 | definition: the sum of the five signals before the clamp; see ScoreClampsThenRounds |
| Scoring.FindAd | src/utils/personalizationEngine.ts:157-159 | getAdById finds nothing exactly when no cached ad has the id, else the first ad with that id |
| Scoring.FindPreference | src/utils/personalizationEngine.ts:20 | the preference lookup finds nothing exactly when the category has no entry, else its first entry |
| Scoring.MatchingTags | src/utils/personalizationEngine.ts:58 | a tag is among the matches exactly when the ad carries it and it was viewed |
| Scoring.ScoreAd | src/utils/personalizationEngine.ts:11-83 | the result is about the given ad, its score is an integer in 0..100, and its reasons appear in signal order, at most one per signal |
| Scoring.ScoreClampsThenRounds | src/utils/personalizationEngine.ts:76-80 | the score is 0 for a raw sum <= 0, 100 for >= 100, and the nearest integer in between |
| Scoring.ReasonKinds | src/utils/personalizationEngine.ts:19-73 | each signal adds at most one reason, and it belongs to that signal's class |
| Scoring.AppendInOrder | src/utils/personalizationEngine.ts:17-73 | appending later signals' reasons keeps the reasons in signal order |
| Scoring.ReasonComesFromItsSignal | src/utils/personalizationEngine.ts:19-73 | a reason of a signal's class is in the result exactly when that signal produced it |
| Scoring.FixedReasonKinds | src/utils/personalizationEngine.ts:25-72 | each fixed reason text belongs to its own signal's class |
| Scoring.PriorityPointsInRange | src/utils/personalizationEngine.ts:30 | a priority in 1..10 gives 2..20 points, twice the priority |
| Scoring.EngagementReasons | src/utils/personalizationEngine.ts:37-49 | "Previously clicked" iff a click; else "Previously viewed" iff more than 2 views; else "New to you" iff no view |
| Scoring.NeutralZone | src/utils/personalizationEngine.ts:37-49 | one or two views and no click change neither the score nor the engagement reasons |
| Scoring.HighInterestReason | src/utils/personalizationEngine.ts:20-27 | "High interest in {category}" appears iff the category's first preference is above 50 |
| Scoring.ViewedTagsAre | src/utils/personalizationEngine.ts:52-56 | a tag counts as viewed iff some view resolves through the cache to an ad carrying it |
| Scoring.UnresolvedViewAddsNoTags | src/utils/personalizationEngine.ts:54 | a view whose ad is not in the cache contributes no tags |
| Scoring.EmptyCacheNoTagBonus | src/utils/personalizationEngine.ts:151-159 | with an empty cache no view resolves, so the tag signal adds no points and no reason |
| Scoring.NothingViewedNoTagBonus | src/utils/personalizationEngine.ts:58-62 | with no viewed tags the tag signal is silent |
| Scoring.NoMatchesAgainstNothing | src/utils/personalizationEngine.ts:58 | no tag matches an empty viewed set |
| Scoring.TagReason | src/utils/personalizationEngine.ts:58-62 | the tag bonus is 3 per matching tag entry; a "Matches interests" reason appears iff some tag of the ad was viewed |
| Scoring.TagReasonNamesFirstTwo | src/utils/personalizationEngine.ts:61 | the tag reason names the first matching tag, or the first two separated by ", ", never more |
| Scoring.IsRecentWithinDay | src/utils/personalizationEngine.ts:66-67 | a view is recent iff it is less than 24 hours (86,400,000 ms) old |
| Scoring.RecentViewCountAppend | src/utils/personalizationEngine.ts:65-68 | one more view raises the recent count by one exactly when it is a recent view of this ad |
| Scoring.RecencyPerView | src/utils/personalizationEngine.ts:65-73 | each recent view of this ad takes 10 more points off; other views change nothing |
| Scoring.RecentViewsExist | src/utils/personalizationEngine.ts:65-70 | the recent count is positive iff some view of this ad is under 24 hours old |
| Scoring.ShownRecentlyReason | src/utils/personalizationEngine.ts:70-73 | "Shown recently" appears iff this ad has a view less than 24 hours old |
| Scoring.ClickedRanksBelowUnseen | src/utils/personalizationEngine.ts:16-80 | with no views, an already-clicked ad scores strictly below an unseen ad of the same category and priority |
| Ranking.FirstPass | src/utils/personalizationEngine.ts:116-126 | definition: the capped first loop; see FirstPassFacts, FirstPassDistinct, FirstPassKeepsOrder |
| Ranking.Backfill | src/utils/personalizationEngine.ts:128-136 | definition: the second loop that fills up with ids not yet taken; see BackfillFacts, BackfillLength |
| Ranking.Diversify | src/utils/personalizationEngine.ts:111-139 | definition: the capped pass, backfilled when it came up short; see DiversifyBounds, DiversityCap, DiversifyLength |
| Ranking.CountInAppend | src/utils/personalizationEngine.ts:120-124 | admitting an entry bumps only its own category's count |
| Ranking.ApplyDiversity | src/utils/personalizationEngine.ts:111-139 | the two loops with the categoryCount record return exactly Diversify |
| Ranking.FirstPassFacts | src/utils/personalizationEngine.ts:116-126 | the capped pass extends what it has, never exceeds limit, takes only input entries, and keeps every category within the cap |
| Ranking.FirstPassExtends | src/utils/personalizationEngine.ts:116-126 | the capped pass only appends to what it has, never grows past limit, and leaves a full list unchanged |
| Ranking.FirstPassDrawn | src/utils/personalizationEngine.ts:116-126 | every entry the capped pass returns was already kept or comes from the part of the input still to scan |
| Ranking.FirstPassCap | src/utils/personalizationEngine.ts:119-124 | a category within the cap before the pass stays within the cap after it |
| Ranking.AdmitKeepsDistinct | src/utils/personalizationEngine.ts:122-124 | appending the scanned entry to a kept list drawn from the scanned prefix of an input with distinct ids keeps the ids distinct and the list drawn from the prefix |
| Ranking.FirstPassDistinct | src/utils/personalizationEngine.ts:116-126 | over distinct ids the capped pass takes distinct ids |
| Ranking.BackfillFacts | src/utils/personalizationEngine.ts:128-136 | the backfill extends the first-pass list, never exceeds limit, and adds only ids not already present |
| Ranking.BackfillExtends | src/utils/personalizationEngine.ts:128-136 | the backfill only appends to the first-pass list and never grows it past limit |
| Ranking.BackfillDrawn | src/utils/personalizationEngine.ts:128-136 | every entry the backfill returns was already kept or comes from the part of the input still to scan |
| Ranking.BackfillNewIds | src/utils/personalizationEngine.ts:130-135 | every entry the backfill adds has an id that no earlier entry of the result has |
| Ranking.AdmitNewId | src/utils/personalizationEngine.ts:132-133 | appending an entry whose id is not yet taken keeps the ids distinct, the list drawn from the input, and every scanned id present |
| Ranking.IdSetSize | src/utils/personalizationEngine.ts:132 | a list has at most as many distinct ids as entries, exactly as many when its ids are distinct |
| Ranking.SubsetSize | src/utils/personalizationEngine.ts:132 | a subset is no larger than its superset |
| Ranking.DrawnListSize | src/utils/personalizationEngine.ts:128-136 | a distinct-id list drawn from the input is no longer than it, and as long as its id set once it covers every input id |
| Ranking.BackfillLength | src/utils/personalizationEngine.ts:128-136 | over distinct ids the backfill fills to min(limit, input length) |
| Ranking.DiversifyBounds | src/utils/personalizationEngine.ts:111-139 | the result is empty for limit <= 0, never longer than limit, and drawn from the input |
| Ranking.DiversityCap | src/utils/personalizationEngine.ts:114-136 | the capped pass admits at most ceil(limit/3) per category and stays in front; a backfill happens only when it came up short and adds only new ids |
| Ranking.NoBackfillKeepsCap | src/utils/personalizationEngine.ts:129 | when the capped pass fills the list, the cap holds for the whole result |
| Ranking.DiversifyLength | src/utils/personalizationEngine.ts:111-139 | with distinct ids the result has min(limit, input length) entries (0 for limit <= 0), all distinct |
| Ranking.FirstPassKeepsOrder | src/utils/personalizationEngine.ts:116-126 | the capped pass over a score-sorted list stays sorted by descending score |
| Ranking.AdmitKeepsOrder | src/utils/personalizationEngine.ts:122-124 | appending the scanned entry of a score-sorted input to a sorted list whose scores are all at least the rest of the input keeps it sorted, and keeps that bound for the rest |
| Ranking.ScoreAll | src/utils/personalizationEngine.ts:95-97 | one scored entry per ad, about the ad at the same position, with a score in 0..100 |
| Ranking.RankedByScore | src/utils/personalizationEngine.ts:95-100 | definition: the scored ads, stably sorted by descending score; see SortDesc, SortDescStable |
| Ranking.PersonalizedAds | src/utils/personalizationEngine.ts:88-106 | definition: what getPersonalizedAds returns; see PersonalizedEntries, PersonalizedLength, PersonalizedDiversity |
| Ranking.GetPersonalizedAds | src/utils/personalizationEngine.ts:88-106 | score, sort, diversify returns exactly PersonalizedAds; limit defaults to 10 |
| Ranking.PersonalizedEntries | src/utils/personalizationEngine.ts:88-106 | at most limit entries (none for limit <= 0), each the score of a catalog ad, within 0..100 |
| Ranking.PersonalizedLength | src/utils/personalizationEngine.ts:88-106 | with distinct ad ids the list holds min(limit, catalog size) entries with distinct ids |
| Ranking.PersonalizedDiversity | src/utils/personalizationEngine.ts:100-103 | the capped part of the personalized list respects the cap, is its prefix, and is in descending score |
| Ranking.ColdStartFrom | src/utils/personalizationEngine.ts:175-188 | definition: the greedy walk over the sorted ads with its list and category set; see ColdStartFromFacts |
| Ranking.ColdStart | src/utils/personalizationEngine.ts:173-189 | definition: what getColdStartAds returns; see ColdStartProperties |
| Ranking.GetColdStartAds | src/utils/personalizationEngine.ts:173-189 | the loop over a sorted copy returns exactly ColdStart of the array's contents and leaves the array alone |
| Ranking.StepCategories | src/utils/personalizationEngine.ts:184 | admitting an ad adds exactly its category to the set of categories seen |
| Ranking.StepDrawn | src/utils/personalizationEngine.ts:180-183 | the admitted ads stay drawn from the part of the sorted list already walked |
| Ranking.StepSorted | src/utils/personalizationEngine.ts:178-183 | the next ad of the sorted list ranks no higher than any ad admitted before it |
| Ranking.StepDistinct | src/utils/personalizationEngine.ts:182 | an ad admitted while the list is at most half full has a category no admitted ad has |
| Ranking.ColdStartStep | src/utils/personalizationEngine.ts:180-186 | admitting the next sorted ad keeps the category set, the drawn-from-input, sorted and distinct-while-half-full invariants |
| Ranking.ColdStartFromExtends | src/utils/personalizationEngine.ts:180-186 | the walk only appends to its list and never takes it past limit |
| Ranking.ColdStartFromDrawn | src/utils/personalizationEngine.ts:178-186 | every returned ad comes from the sorted list, no more often than it occurs there |
| Ranking.ColdStartFromOrder | src/utils/personalizationEngine.ts:178-186 | the returned list is in descending priority and its categories stay distinct while it is at most half full |
| Ranking.ColdStartFromFacts | src/utils/personalizationEngine.ts:180-186 | the greedy walk extends its list, stops at limit, draws from the input, stays sorted and keeps categories distinct while at most half full |
| Ranking.ColdStartProperties | src/utils/personalizationEngine.ts:173-189 | at most limit ads (none for limit <= 0), all from the input, in descending priority, each ad admitted while at most half full of a new category |
| Ranking.SliceEnd | src/utils/personalizationEngine.ts:167 | slice's end index: the limit when in range, the length beyond it, counted from the back when negative |
| Ranking.Trending | src/utils/personalizationEngine.ts:164-168 | definition: the priority-sorted ads cut at the slice end; see TrendingShape, TrendingKeepsHighest |
| Ranking.GetTrendingAds | src/utils/personalizationEngine.ts:164-168 | sorts the caller's array itself by descending priority and returns Trending of its old contents |
| Ranking.TrendingShape | src/utils/personalizationEngine.ts:164-168 | the trending list has min(limit, n) ads (n + limit for negative limits), in descending priority, drawn from the input |
| Ranking.TrendingKeepsHighest | src/utils/personalizationEngine.ts:164-168 | no ad left out of the trending list outranks one kept |
| Ranking.SplitSorted | src/utils/personalizationEngine.ts:166-167 | in a priority-sorted list the front outranks the back |
| Ranking.AdsByCategory | src/utils/personalizationEngine.ts:144-146 | an ad is in the result iff it is an input ad of that category |
| Ranking.AdsByCategoryCounts | src/utils/personalizationEngine.ts:144-146 | each ad of the category is kept as often as it occurs, every other ad dropped |
| Ranking.AdsByCategoryAppend | src/utils/personalizationEngine.ts:144-146 | filtering distributes over concatenation, so input order is kept |
| Feed.FeedAds | src/components/PersonalizedAdFeed.tsx:24-47 | definition: the memoised list, cold start without history and personalized otherwise, limit defaulting to 10 (line 14); see FeedColdStart, FeedPersonalized, FeedBounds |
| Feed.FeedColdStart | src/components/PersonalizedAdFeed.tsx:28-38 | without views and clicks the feed is getColdStartAds with score priority·10 and the two fixed reasons |
| Feed.FeedPersonalized | src/components/PersonalizedAdFeed.tsx:40-46 | with any view or click the feed is exactly getPersonalizedAds over the aggregated preferences |
| Feed.FeedBounds | src/components/PersonalizedAdFeed.tsx:24-47 | in both branches at most limit entries, each about a catalog ad |
| Feed.FeedScoresInRange | src/components/PersonalizedAdFeed.tsx:24-47 | with priorities in 1..10 every feed score lies in 0..100 on both paths |
| Feed.ColdStartFeedSorted | src/components/PersonalizedAdFeed.tsx:32-37 | the cold-start feed is in descending score |
| Catalog.MockAdsShape | src/data/mockAds.ts:4-170 | the catalog has fifteen ads with the listed priorities and categories |
| Catalog.MockAdsIds | src/data/mockAds.ts:4-170 | the catalog's ids are ad-1 .. ad-15 in order |
| Catalog.AdIdsDistinct | src/data/mockAds.ts:4-170 | those ids are pairwise distinct |
| Catalog.MockAdsDistinctIds | src/data/mockAds.ts:4-170 | no two catalog ads share an id |
| Catalog.Pick | src/utils/personalizationEngine.ts:178 | picking ads by a list of positions yields one ad per position |
| Catalog.InsertPick | src/utils/personalizationEngine.ts:178 | inserting an ad into picked ads equals picking after inserting its position by priority |
| Catalog.SortPick | src/utils/personalizationEngine.ts:178 | sorting a catalog-shaped list by priority equals picking it in the order of the position sort |
| Catalog.SortIdxOfCatalog | src/utils/personalizationEngine.ts:178 | the stable priority order of the catalog's positions |
| Catalog.SortedCatalog | src/utils/personalizationEngine.ts:178 | the catalog sorted by descending priority, ties in catalog order |
| Catalog.WalkPick | src/utils/personalizationEngine.ts:180-186 | the cold-start walk over picked ads takes the ads at the positions the position walk takes |
| Catalog.WalkOfCatalog | src/utils/personalizationEngine.ts:180-186 | the positions the walk takes from the sorted catalog with limit 12 |
| Catalog.PickColdStartPositions | src/utils/personalizationEngine.ts:180-186 | those positions name the ads at catalog positions 3, 12, 0, 6, 9, 13, 2, 7, 10 |
| Catalog.ColdStartOnCatalog | src/utils/personalizationEngine.ts:173-189 | cold start with limit 12 over a catalog-shaped list returns nine ads, fewer than its fifteen |
| Catalog.ColdStartOnMockAds | src/utils/personalizationEngine.ts:173-189 | over the mock catalog with limit 12: ad-4, ad-13, ad-1, ad-7, ad-10, ad-14, ad-3, ad-8, ad-11 |
| Catalog.FeedOnMockAds | src/components/PersonalizedAdFeed.tsx:24-47 | over the mock catalog with limit 12 the feed shows nine ads without history and twelve with any view or click |

## Left out

- The clock and `Math.exp` are parameters (`now`, `decay`). Nothing in the model depends on the exact shape of the decay curve. It is only assumed positive where a lemma needs it.
- One `now` serves both the preference aggregation and every `scoreAd` call in a ranking. The source reads `Date.now()` separately: once in `getCategoryPreferences` (src/context/BehaviorContext.tsx:98) and again for every view filtered in `scoreAd` (src/utils/personalizationEngine.ts:66). Those readings can differ by the time the computation takes. The model does not capture that drift; an event near the 24-hour boundary could be judged differently by two such readings.
- IEEE-754 doubles are exact reals. Rounding errors in `duration / 5`, in the division by the maximum, in `hoursSince` (src/utils/personalizationEngine.ts:66) and in `ageInDays` (src/context/BehaviorContext.tsx:100) are not modelled. `Math.round` is round-half-up over reals.
- The engine's static `adCache` and `setAdCache` (src/utils/personalizationEngine.ts:151-155) are an explicit `cache` parameter. The component fills the cache in an effect; effects run after the first render, and that render already calls the memoised ranking. The first personalized ranking can therefore see an empty cache. `Scoring.EmptyCacheNoTagBonus` states what it then computes.
- Persistence is left out: the `localStorage` load/save, JSON parsing and its fallback (src/context/BehaviorContext.tsx:17-26, 38-44, 134). `Behavior.BehaviorStore.constructor` models the fallback's empty history.
- React machinery is left out: context creation, `useCallback`, the provider, the `useBehaviorTracking` throw, the effect that fills the cache, and all JSX and UI components. These are framework glue, not logic.
- The GraphQL client, hooks and queries are left out. They are unused network scaffolding.
- `getAdsByCategory` takes its category as a string. The model takes an `AdCategory`. A string that names no category would give an empty list; this is not modelled.
- `UserBehavior.preferences` is stored and cleared but never read by the core. The model carries it unchanged.
- `Ranking.GetTrendingAds` does not model the steps of the engine's in-place sorting algorithm. It states the array's final contents (the stable sort of its old contents) and the returned prefix.
- `Ranking.GetPersonalizedAds` sorts the freshly mapped array. That array is private to the call, so it is modelled on values.
- `Preferences.TopCategoryScoresHundred`: the 100 is proved only when some running score reaches 1. Below that the divisor is the floor 1, and no category need reach 100.
- `Preferences.PreferenceScoresInRange`: durations are assumed non-negative. A negative duration could make a running score negative, and its preference negative.
- With the fifteen-ad catalog, an empty history and limit 12, the cold-start list holds nine ads, not twelve. In the stable priority order the walk takes ad-4, ad-13 and ad-1 and skips ad-5, whose category repeats. It then takes ad-7, ad-10 and ad-14. With six ads the list is not more than half of 12, so ad-2, ad-6, ad-9, ad-12 and ad-15 are skipped as repeats. ad-3 brings a new category and makes seven. Only ad-8 and ad-11 remain, and both are taken. The walk never returns to the ads it skipped. `Catalog.ColdStartOnMockAds` and `Catalog.FeedOnMockAds` prove this outcome.
- The `UserProfile` record (src/types/index.ts:41-46) is left out. No operation of the core reads or builds it.
- The `limit` parameter is an integer, where the source takes any JavaScript number. A fractional limit is not modelled. Negative and zero limits are.
