/**
 * The feed's choice between the two ranking paths: a viewer with no views
 * and no clicks gets the cold-start list with synthetic scores, anyone else
 * gets the personalized list. The catalog and the ad cache are parameters;
 * on the feed's first render the cache has not been filled yet.
 */
module Feed {
  import opened Types
  import opened Sorting
  import opened Preferences
  import opened Ranking

  const TrendingReason: string := "Trending"
  const PopularChoiceReason: string := "Popular choice"

  /** A cold-start ad as the feed shows it: score priority*10 and two fixed reasons. */
  function ColdStartEntry(ad: Ad): (e: AdScore)
  {
    AdScore(ad, ad.priority * 10, [TrendingReason, PopularChoiceReason])
  }

  function ColdStartFeed(catalog: seq<Ad>, limit: int): (r: seq<AdScore>)
  {
    var coldStartAds := ColdStart(catalog, limit);
    seq(|coldStartAds|, i requires 0 <= i < |coldStartAds| => ColdStartEntry(coldStartAds[i]))
  }

  /** The useMemo body: the list the feed renders for this history. */
  function FeedAds(catalog: seq<Ad>, behavior: UserBehavior, cache: seq<Ad>, now: int,
                   decay: int -> real, limit: int := 10): seq<AdScore>
  {
    var preferences := CategoryPreferences(behavior, now, decay);
    var hasInteractions := |behavior.views| > 0 || |behavior.clicks| > 0;
    if !hasInteractions then ColdStartFeed(catalog, limit)
    else PersonalizedAds(catalog, preferences, behavior, cache, now, limit)
  }

  /** Without views and clicks the feed is the cold-start list, entry for entry. */
  lemma FeedColdStart(catalog: seq<Ad>, behavior: UserBehavior, cache: seq<Ad>, now: int,
                      decay: int -> real, limit: int)
    requires behavior.views == [] && behavior.clicks == []
    ensures var r := FeedAds(catalog, behavior, cache, now, decay, limit); var cs := ColdStart(catalog, limit);
      && |r| == |cs|
      && forall i :: 0 <= i < |r| ==>
           && r[i].ad == cs[i]
           && r[i].score == cs[i].priority * 10
           && r[i].reasons == ["Trending", "Popular choice"]
  {
  }

  /** With any view or click the feed is the personalized list over the aggregated preferences. */
  lemma FeedPersonalized(catalog: seq<Ad>, behavior: UserBehavior, cache: seq<Ad>, now: int,
                         decay: int -> real, limit: int)
    requires |behavior.views| > 0 || |behavior.clicks| > 0
    ensures FeedAds(catalog, behavior, cache, now, decay, limit)
         == PersonalizedAds(catalog, CategoryPreferences(behavior, now, decay), behavior, cache, now, limit)
  {
  }

  /** In both branches the feed holds at most `limit` entries, each about a catalog ad. */
  lemma FeedBounds(catalog: seq<Ad>, behavior: UserBehavior, cache: seq<Ad>, now: int,
                   decay: int -> real, limit: int)
    ensures var r := FeedAds(catalog, behavior, cache, now, decay, limit);
      && (limit <= 0 ==> r == [])
      && (0 <= limit ==> |r| <= limit)
      && forall x :: x in r ==> x.ad in catalog
  {
    var r := FeedAds(catalog, behavior, cache, now, decay, limit);
    if |behavior.views| > 0 || |behavior.clicks| > 0 {
      PersonalizedEntries(catalog, CategoryPreferences(behavior, now, decay), behavior, cache, now, limit);
    } else {
      var cs := ColdStart(catalog, limit);
      ColdStartProperties(catalog, limit);
      forall x | x in r ensures x.ad in catalog {
        var i :| 0 <= i < |r| && r[i] == x;
        assert cs[i] in multiset(catalog);
      }
    }
  }

  /** With priorities in 1..10 every feed score lies in 0..100, on both paths. */
  lemma FeedScoresInRange(catalog: seq<Ad>, behavior: UserBehavior, cache: seq<Ad>, now: int,
                          decay: int -> real, limit: int)
    requires ValidPriorities(catalog)
    ensures forall x :: x in FeedAds(catalog, behavior, cache, now, decay, limit) ==> 0 <= x.score <= 100
  {
    var r := FeedAds(catalog, behavior, cache, now, decay, limit);
    if |behavior.views| > 0 || |behavior.clicks| > 0 {
      PersonalizedEntries(catalog, CategoryPreferences(behavior, now, decay), behavior, cache, now, limit);
    } else {
      FeedBounds(catalog, behavior, cache, now, decay, limit);
      forall x | x in r ensures 0 <= x.score <= 100 {
        var k :| 0 <= k < |catalog| && catalog[k] == x.ad;
        assert PriorityInRange(catalog[k]);
      }
    }
  }

  /** The cold-start scores are ordered as the feed lists them: highest first. */
  lemma ColdStartFeedSorted(catalog: seq<Ad>, limit: int)
    ensures SortedDesc(ColdStartFeed(catalog, limit), ScoreValue)
  {
    ColdStartProperties(catalog, limit);
  }
}
