/**
 * The per-ad score of the ranking engine (scoreAd): five additive signals,
 * each of which may add one reason, then a clamp to 0..100 and Math.round.
 *
 * The engine resolved viewed ad ids through a process-wide cache that its
 * caller had to fill first; here that cache is the explicit parameter
 * `cache`. The clock reading is the parameter `now` (epoch milliseconds).
 */
module Scoring {
  import opened Types
  import opened JsMath

  const MsPerHour: int := 1000 * 60 * 60

  const HighInterestPrefix: string := "High interest in "
  const PreviouslyClicked: string := "Previously clicked"
  const PreviouslyViewed: string := "Previously viewed"
  const NewToYou: string := "New to you"
  const MatchesPrefix: string := "Matches interests: "
  const ShownRecently: string := "Shown recently"

  /** What one signal contributes: points (possibly negative) and the reasons it appends. */
  datatype Signal = Signal(points: real, reasons: seq<string>)

  // ----- lookups -----

  /** getAdById: the first ad in the cache with that id, if any. */
  function FindAd(cache: seq<Ad>, id: string): (r: Option<Ad>)
    ensures r.None? <==> forall i :: 0 <= i < |cache| ==> cache[i].id != id
    ensures r.Some? ==> exists i :: 0 <= i < |cache| && cache[i] == r.value
                          && r.value.id == id && forall j :: 0 <= j < i ==> cache[j].id != id
  {
    if cache == [] then None
    else if cache[0].id == id then Some(cache[0])
    else
      var r := FindAd(cache[1..], id);
      assert r.Some? ==> exists i :: 0 <= i < |cache| && cache[i] == r.value
                          && r.value.id == id && forall j :: 0 <= j < i ==> cache[j].id != id by {
        if r.Some? {
          var i :| 0 <= i < |cache[1..]| && cache[1..][i] == r.value
                   && forall j :: 0 <= j < i ==> cache[1..][j].id != id;
          assert cache[i + 1] == r.value;
          forall j | 0 <= j < i + 1 ensures cache[j].id != id {
            if j > 0 { assert cache[j] == cache[1..][j - 1]; }
          }
        }
      }
      r
  }

  /** The first preference entry for category c, if any. */
  function FindPreference(prefs: seq<CategoryPreference>, c: AdCategory): (r: Option<CategoryPreference>)
    ensures r.None? <==> forall i :: 0 <= i < |prefs| ==> prefs[i].category != c
    ensures r.Some? ==> exists i :: 0 <= i < |prefs| && prefs[i] == r.value
                          && r.value.category == c && forall j :: 0 <= j < i ==> prefs[j].category != c
  {
    if prefs == [] then None
    else if prefs[0].category == c then Some(prefs[0])
    else
      var r := FindPreference(prefs[1..], c);
      assert r.Some? ==> exists i :: 0 <= i < |prefs| && prefs[i] == r.value
                          && r.value.category == c && forall j :: 0 <= j < i ==> prefs[j].category != c by {
        if r.Some? {
          var i :| 0 <= i < |prefs[1..]| && prefs[1..][i] == r.value
                   && forall j :: 0 <= j < i ==> prefs[1..][j].category != c;
          assert prefs[i + 1] == r.value;
          forall j | 0 <= j < i + 1 ensures prefs[j].category != c {
            if j > 0 { assert prefs[j] == prefs[1..][j - 1]; }
          }
        }
      }
      r
  }

  /** The tags of a looked-up ad, or none when the lookup failed. */
  function TagsOf(a: Option<Ad>): seq<string> {
    if a.Some? then a.value.tags else []
  }

  // ----- counting over the history -----

  /** How many recorded views are of the ad with this id. */
  function ViewCount(views: seq<ViewEvent>, id: string): nat {
    if views == [] then 0 else (if views[0].adId == id then 1 else 0) + ViewCount(views[1..], id)
  }

  /** How many recorded clicks are of the ad with this id. */
  function ClickCount(clicks: seq<ClickEvent>, id: string): nat {
    if clicks == [] then 0 else (if clicks[0].adId == id then 1 else 0) + ClickCount(clicks[1..], id)
  }

  /** The view's age at `now`, counted in hours, is below 24. */
  predicate IsRecent(v: ViewEvent, now: int) {
    (now - v.timestamp) as real / MsPerHour as real < 24.0
  }

  /** The views of ad `id` fewer than 24 hours old. */
  function RecentViewCount(views: seq<ViewEvent>, id: string, now: int): nat {
    if views == [] then 0
    else (if views[0].adId == id && IsRecent(views[0], now) then 1 else 0) + RecentViewCount(views[1..], id, now)
  }

  /** The union of the tags of every viewed ad that resolves in the cache. */
  function ViewedTags(views: seq<ViewEvent>, cache: seq<Ad>): set<string> {
    if views == [] then {}
    else (set t | t in TagsOf(FindAd(cache, views[0].adId))) + ViewedTags(views[1..], cache)
  }

  /** The ad's tags that were viewed, in the ad's order, duplicates kept. */
  function MatchingTags(tags: seq<string>, viewed: set<string>): (m: seq<string>)
    ensures |m| <= |tags|
    ensures forall t :: t in m <==> t in tags && t in viewed
  {
    if tags == [] then []
    else (if tags[0] in viewed then [tags[0]] else []) + MatchingTags(tags[1..], viewed)
  }

  /** Array.prototype.join. */
  function Join(parts: seq<string>, sep: string): string {
    if parts == [] then ""
    else if |parts| == 1 then parts[0]
    else parts[0] + sep + Join(parts[1..], sep)
  }

  // ----- the five signals -----

  /** 1. Category match: half the preference score; a reason once it exceeds 25 points. */
  function CategorySignal(ad: Ad, prefs: seq<CategoryPreference>): Signal {
    match FindPreference(prefs, ad.category)
    case None => Signal(0.0, [])
    case Some(p) =>
      var categoryScore := (p.score as real / 100.0) * 50.0;
      Signal(categoryScore, if categoryScore > 25.0 then [HighInterestPrefix + CategoryName(ad.category)] else [])
  }

  /** 2. Priority weight, no reason. */
  function PriorityPoints(ad: Ad): real {
    (ad.priority as real / 10.0) * 20.0
  }

  /** A documented priority (1..10) keeps the priority term within 2..20 points. */
  lemma PriorityPointsInRange(ad: Ad)
    requires PriorityInRange(ad)
    ensures 2.0 <= PriorityPoints(ad) <= 20.0
    ensures PriorityPoints(ad) == 2.0 * ad.priority as real
  {
  }

  /** 3. Earlier engagement with this ad: clicked, viewed often, or never viewed. */
  function EngagementSignal(id: string, b: UserBehavior): Signal {
    var previousViews := ViewCount(b.views, id);
    var previousClicks := ClickCount(b.clicks, id);
    if previousClicks > 0 then Signal(-10.0, [PreviouslyClicked])
    else if previousViews > 2 then Signal(-5.0, [PreviouslyViewed])
    else if previousViews == 0 then Signal(15.0, [NewToYou])
    else Signal(0.0, [])
  }

  /** 4. Tag affinity: 3 points per matching tag; the reason names the first two. */
  function TagSignal(ad: Ad, views: seq<ViewEvent>, cache: seq<Ad>): Signal {
    var matching := MatchingTags(ad.tags, ViewedTags(views, cache));
    if |matching| > 0 then
      Signal(|matching| as real * 3.0,
             [MatchesPrefix + Join(matching[..if |matching| < 2 then |matching| else 2], ", ")])
    else Signal(0.0, [])
  }

  /** 5. Recency suppression: 10 points off per view of this ad in the last 24 hours. */
  function RecencySignal(id: string, views: seq<ViewEvent>, now: int): Signal {
    var recent := RecentViewCount(views, id, now);
    if recent > 0 then Signal(-(recent as real * 10.0), [ShownRecently]) else Signal(0.0, [])
  }

  /** The score before it is clamped. */
  function RawScore(ad: Ad, prefs: seq<CategoryPreference>, b: UserBehavior, cache: seq<Ad>, now: int): real {
    CategorySignal(ad, prefs).points + PriorityPoints(ad) + EngagementSignal(ad.id, b).points
      + TagSignal(ad, b.views, cache).points + RecencySignal(ad.id, b.views, now).points
  }

  // ----- reason classes -----

  /** Which signal a reason text comes from, in evaluation order (4: none of them). */
  function ReasonKind(s: string): nat {
    if HighInterestPrefix <= s then 0
    else if s == PreviouslyClicked || s == PreviouslyViewed || s == NewToYou then 1
    else if MatchesPrefix <= s then 2
    else if s == ShownRecently then 3
    else 4
  }

  /** Reasons appear in signal order, at most one per signal. */
  predicate ReasonsInOrder(rs: seq<string>) {
    forall i, j :: 0 <= i < j < |rs| ==> ReasonKind(rs[i]) < ReasonKind(rs[j])
  }

  /** At most one reason, and it comes from signal k. */
  predicate OneReasonOfKind(rs: seq<string>, k: nat) {
    |rs| <= 1 && forall i :: 0 <= i < |rs| ==> ReasonKind(rs[i]) == k
  }

  lemma ReasonKinds(ad: Ad, prefs: seq<CategoryPreference>, b: UserBehavior, cache: seq<Ad>, now: int)
    ensures OneReasonOfKind(CategorySignal(ad, prefs).reasons, 0)
    ensures OneReasonOfKind(EngagementSignal(ad.id, b).reasons, 1)
    ensures OneReasonOfKind(TagSignal(ad, b.views, cache).reasons, 2)
    ensures OneReasonOfKind(RecencySignal(ad.id, b.views, now).reasons, 3)
  {
    var name := CategoryName(ad.category);
    assert HighInterestPrefix <= HighInterestPrefix + name;
    assert HighInterestPrefix[0] == 'H' && PreviouslyClicked[0] == 'P' && PreviouslyViewed[0] == 'P';
    assert !(HighInterestPrefix <= PreviouslyClicked) && !(HighInterestPrefix <= PreviouslyViewed);
    assert !(HighInterestPrefix <= NewToYou) && !(HighInterestPrefix <= ShownRecently);
    assert !(MatchesPrefix <= ShownRecently);
    var t := TagSignal(ad, b.views, cache);
    if t.reasons != [] {
      var s := t.reasons[0];
      assert MatchesPrefix <= s;
      assert s[0] == 'M';
      assert !(HighInterestPrefix <= s);
    }
  }

  lemma {:induction false} AppendInOrder(a: seq<string>, b: seq<string>)
    requires ReasonsInOrder(a) && ReasonsInOrder(b)
    requires forall x, y :: x in a && y in b ==> ReasonKind(x) < ReasonKind(y)
    ensures ReasonsInOrder(a + b)
  {
    var ab := a + b;
    forall i, j | 0 <= i < j < |ab| ensures ReasonKind(ab[i]) < ReasonKind(ab[j]) {
      if j < |a| {
        assert ab[i] == a[i] && ab[j] == a[j];
      } else if i >= |a| {
        assert ab[i] == b[i - |a|] && ab[j] == b[j - |a|];
      } else {
        assert ab[i] == a[i] && ab[j] == b[j - |a|];
        assert ab[i] in a && ab[j] in b;
      }
    }
  }

  /** scoreAd: the clamped, rounded sum of the five signals and their reasons in signal order. */
  function ScoreAd(ad: Ad, prefs: seq<CategoryPreference>, b: UserBehavior, cache: seq<Ad>, now: int): (r: AdScore)
    ensures r.ad == ad
    ensures 0 <= r.score <= 100
    ensures ReasonsInOrder(r.reasons)
  {
    var c := CategorySignal(ad, prefs);
    var e := EngagementSignal(ad.id, b);
    var t := TagSignal(ad, b.views, cache);
    var x := RecencySignal(ad.id, b.views, now);
    var bounded := Clamp(RawScore(ad, prefs, b, cache, now), 0.0, 100.0);
    ReasonKinds(ad, prefs, b, cache, now);
    AppendInOrder(c.reasons, e.reasons);
    AppendInOrder(c.reasons + e.reasons, t.reasons);
    AppendInOrder(c.reasons + e.reasons + t.reasons, x.reasons);
    RoundBounds(bounded, 0, 100);
    AdScore(ad, Round(bounded), c.reasons + e.reasons + t.reasons + x.reasons)
  }

  // ----- properties of the score -----

  /** The score clamps first and rounds second: it is 0 or 100 outside the range, the nearest integer inside. */
  lemma ScoreClampsThenRounds(ad: Ad, prefs: seq<CategoryPreference>, b: UserBehavior, cache: seq<Ad>, now: int)
    ensures var raw := RawScore(ad, prefs, b, cache, now); var r := ScoreAd(ad, prefs, b, cache, now);
      && (raw <= 0.0 ==> r.score == 0)
      && (100.0 <= raw ==> r.score == 100)
      && (0.0 <= raw <= 100.0 ==> r.score as real - 0.5 <= raw < r.score as real + 0.5)
  {
  }

  /** A reason of signal k's class is in the final list exactly when signal k produced it. */
  lemma ReasonComesFromItsSignal(s: string, ad: Ad, prefs: seq<CategoryPreference>, b: UserBehavior, cache: seq<Ad>, now: int)
    ensures var r := ScoreAd(ad, prefs, b, cache, now);
      && (ReasonKind(s) == 0 ==> (s in r.reasons <==> s in CategorySignal(ad, prefs).reasons))
      && (ReasonKind(s) == 1 ==> (s in r.reasons <==> s in EngagementSignal(ad.id, b).reasons))
      && (ReasonKind(s) == 2 ==> (s in r.reasons <==> s in TagSignal(ad, b.views, cache).reasons))
      && (ReasonKind(s) == 3 ==> (s in r.reasons <==> s in RecencySignal(ad.id, b.views, now).reasons))
  {
    ReasonKinds(ad, prefs, b, cache, now);
  }

  lemma FixedReasonKinds()
    ensures ReasonKind(PreviouslyClicked) == 1 && ReasonKind(PreviouslyViewed) == 1 && ReasonKind(NewToYou) == 1
    ensures ReasonKind(ShownRecently) == 3
    ensures forall c: AdCategory :: ReasonKind(HighInterestPrefix + CategoryName(c)) == 0
  {
    assert HighInterestPrefix[0] == 'H' && PreviouslyClicked[0] == 'P' && PreviouslyViewed[0] == 'P';
    assert NewToYou[0] == 'N' && ShownRecently[0] == 'S' && MatchesPrefix[0] == 'M';
    forall c: AdCategory ensures ReasonKind(HighInterestPrefix + CategoryName(c)) == 0 {
      assert HighInterestPrefix <= HighInterestPrefix + CategoryName(c);
    }
  }

  /**
   * The engagement branches exclude each other: a click on this ad gives "Previously clicked";
   * otherwise more than 2 views give "Previously viewed"; otherwise no view gives "New to you".
   */
  lemma EngagementReasons(ad: Ad, prefs: seq<CategoryPreference>, b: UserBehavior, cache: seq<Ad>, now: int)
    ensures var r := ScoreAd(ad, prefs, b, cache, now);
      var views := ViewCount(b.views, ad.id); var clicks := ClickCount(b.clicks, ad.id);
      && (PreviouslyClicked in r.reasons <==> clicks > 0)
      && (PreviouslyViewed in r.reasons <==> clicks == 0 && views > 2)
      && (NewToYou in r.reasons <==> clicks == 0 && views == 0)
  {
    FixedReasonKinds();
    ReasonComesFromItsSignal(PreviouslyClicked, ad, prefs, b, cache, now);
    ReasonComesFromItsSignal(PreviouslyViewed, ad, prefs, b, cache, now);
    ReasonComesFromItsSignal(NewToYou, ad, prefs, b, cache, now);
    assert PreviouslyClicked != PreviouslyViewed && PreviouslyClicked != NewToYou && PreviouslyViewed != NewToYou by {
      assert PreviouslyClicked[11] == 'c' && PreviouslyViewed[11] == 'v' && NewToYou[0] == 'N';
    }
  }

  /** The neutral zone: one or two views and no click change neither the score nor the reasons. */
  lemma NeutralZone(ad: Ad, prefs: seq<CategoryPreference>, b: UserBehavior, cache: seq<Ad>, now: int)
    requires ClickCount(b.clicks, ad.id) == 0 && 1 <= ViewCount(b.views, ad.id) <= 2
    ensures EngagementSignal(ad.id, b).points == 0.0
    ensures var r := ScoreAd(ad, prefs, b, cache, now);
      PreviouslyClicked !in r.reasons && PreviouslyViewed !in r.reasons && NewToYou !in r.reasons
  {
    EngagementReasons(ad, prefs, b, cache, now);
  }

  /** "High interest in {category}" is given exactly when the first preference for the category is above 50. */
  lemma HighInterestReason(ad: Ad, prefs: seq<CategoryPreference>, b: UserBehavior, cache: seq<Ad>, now: int)
    ensures var r := ScoreAd(ad, prefs, b, cache, now); var p := FindPreference(prefs, ad.category);
      (HighInterestPrefix + CategoryName(ad.category)) in r.reasons <==> p.Some? && p.value.score > 50
  {
    FixedReasonKinds();
    ReasonComesFromItsSignal(HighInterestPrefix + CategoryName(ad.category), ad, prefs, b, cache, now);
  }

  /** A tag is among the viewed tags exactly when some view resolves, in the cache, to an ad carrying it. */
  lemma {:induction false} ViewedTagsAre(views: seq<ViewEvent>, cache: seq<Ad>, t: string)
    ensures t in ViewedTags(views, cache)
        <==> exists i :: 0 <= i < |views| && t in TagsOf(FindAd(cache, views[i].adId))
  {
    if views != [] {
      ViewedTagsAre(views[1..], cache, t);
      if t in ViewedTags(views[1..], cache) {
        var i :| 0 <= i < |views[1..]| && t in TagsOf(FindAd(cache, views[1..][i].adId));
        assert views[1..][i] == views[i + 1];
      }
      if exists i :: 0 <= i < |views| && t in TagsOf(FindAd(cache, views[i].adId)) {
        var i :| 0 <= i < |views| && t in TagsOf(FindAd(cache, views[i].adId));
        if i > 0 { assert views[i] == views[1..][i - 1]; }
      }
    }
  }

  /** A view whose ad is not in the cache contributes no tags. */
  lemma {:induction false} UnresolvedViewAddsNoTags(views: seq<ViewEvent>, v: ViewEvent, cache: seq<Ad>)
    requires FindAd(cache, v.adId).None?
    ensures ViewedTags(views + [v], cache) == ViewedTags(views, cache)
  {
    if views == [] {
      assert ([v])[1..] == [];
    } else {
      assert (views + [v])[1..] == views[1..] + [v];
      UnresolvedViewAddsNoTags(views[1..], v, cache);
    }
  }

  /**
   * With nothing in the cache no view resolves, so the tag signal is silent: what the first
   * ranking sees when it runs before the cache is filled.
   */
  lemma {:induction false} EmptyCacheNoTagBonus(ad: Ad, views: seq<ViewEvent>)
    ensures ViewedTags(views, []) == {}
    ensures TagSignal(ad, views, []) == Signal(0.0, [])
  {
    if views != [] {
      EmptyCacheNoTagBonus(ad, views[1..]);
    }
    NothingViewedNoTagBonus(ad, views, []);
  }

  /** No viewed tags, no matching tags. */
  lemma NothingViewedNoTagBonus(ad: Ad, views: seq<ViewEvent>, cache: seq<Ad>)
    requires ViewedTags(views, cache) == {}
    ensures TagSignal(ad, views, cache) == Signal(0.0, [])
  {
    NoMatchesAgainstNothing(ad.tags);
  }

  lemma {:induction false} NoMatchesAgainstNothing(tags: seq<string>)
    ensures MatchingTags(tags, {}) == []
  {
    if tags != [] {
      NoMatchesAgainstNothing(tags[1..]);
    }
  }

  /** The tag bonus is 3 points per matching entry of the ad's tags, with a reason exactly when one matches. */
  lemma TagReason(ad: Ad, prefs: seq<CategoryPreference>, b: UserBehavior, cache: seq<Ad>, now: int)
    ensures var viewed := ViewedTags(b.views, cache);
      TagSignal(ad, b.views, cache).points == 3.0 * |MatchingTags(ad.tags, viewed)| as real
    ensures var r := ScoreAd(ad, prefs, b, cache, now);
      (exists s :: s in r.reasons && MatchesPrefix <= s)
        <==> (exists t :: t in ad.tags && t in ViewedTags(b.views, cache))
  {
    var r := ScoreAd(ad, prefs, b, cache, now);
    var ts := TagSignal(ad, b.views, cache);
    var m := MatchingTags(ad.tags, ViewedTags(b.views, cache));
    ReasonKinds(ad, prefs, b, cache, now);
    assert HighInterestPrefix[0] == 'H' && PreviouslyClicked[0] == 'P' && PreviouslyViewed[0] == 'P';
    assert NewToYou[0] == 'N' && MatchesPrefix[0] == 'M';
    forall s | s in r.reasons && MatchesPrefix <= s ensures s in ts.reasons {
      assert s[0] == 'M';
      assert ReasonKind(s) == 2;
      ReasonComesFromItsSignal(s, ad, prefs, b, cache, now);
    }
    if exists t :: t in ad.tags && t in ViewedTags(b.views, cache) {
      var t :| t in ad.tags && t in ViewedTags(b.views, cache);
      assert t in m;
      var s := ts.reasons[0];
      assert MatchesPrefix <= s;
      ReasonComesFromItsSignal(s, ad, prefs, b, cache, now);
    }
    if exists s :: s in r.reasons && MatchesPrefix <= s {
      var s :| s in r.reasons && MatchesPrefix <= s;
      assert |m| > 0;
      assert m[0] in m;
    }
  }

  /** The tag reason names the first two matching tags only, separated by a comma. */
  lemma TagReasonNamesFirstTwo(ad: Ad, views: seq<ViewEvent>, cache: seq<Ad>)
    ensures var m := MatchingTags(ad.tags, ViewedTags(views, cache)); var t := TagSignal(ad, views, cache);
      && (|m| == 0 ==> t.reasons == [])
      && (|m| == 1 ==> t.reasons == [MatchesPrefix + m[0]])
      && (|m| >= 2 ==> t.reasons == [MatchesPrefix + m[0] + ", " + m[1]])
  {
    var m := MatchingTags(ad.tags, ViewedTags(views, cache));
    if |m| >= 2 {
      assert m[..2] == [m[0], m[1]];
      assert Join([m[0], m[1]][1..], ", ") == m[1];
      assert MatchesPrefix + (m[0] + ", " + m[1]) == MatchesPrefix + m[0] + ", " + m[1];
    } else if |m| == 1 {
      assert m[..1] == [m[0]];
    }
  }

  /** A view is recent exactly when it is less than 24 hours (86,400,000 ms) old; future timestamps count. */
  lemma IsRecentWithinDay(v: ViewEvent, now: int)
    ensures IsRecent(v, now) <==> now - v.timestamp < 24 * MsPerHour
  {
  }

  lemma {:induction false} RecentViewCountAppend(views: seq<ViewEvent>, v: ViewEvent, id: string, now: int)
    ensures RecentViewCount(views + [v], id, now)
         == RecentViewCount(views, id, now) + (if v.adId == id && IsRecent(v, now) then 1 else 0)
  {
    if views == [] {
      assert ([v])[1..] == [];
    } else {
      assert (views + [v])[1..] == views[1..] + [v];
      RecentViewCountAppend(views[1..], v, id, now);
    }
  }

  /** Each recent view of this ad takes 10 more points off; any other view changes nothing. */
  lemma RecencyPerView(id: string, views: seq<ViewEvent>, v: ViewEvent, now: int)
    ensures RecencySignal(id, views + [v], now).points
         == RecencySignal(id, views, now).points - (if v.adId == id && IsRecent(v, now) then 10.0 else 0.0)
  {
    RecentViewCountAppend(views, v, id, now);
  }

  lemma {:induction false} RecentViewsExist(views: seq<ViewEvent>, id: string, now: int)
    ensures RecentViewCount(views, id, now) > 0
        <==> exists i :: 0 <= i < |views| && views[i].adId == id && IsRecent(views[i], now)
  {
    if views != [] {
      RecentViewsExist(views[1..], id, now);
      if exists i :: 0 <= i < |views| && views[i].adId == id && IsRecent(views[i], now) {
        var i :| 0 <= i < |views| && views[i].adId == id && IsRecent(views[i], now);
        if i > 0 { assert views[i] == views[1..][i - 1]; }
      }
      if RecentViewCount(views[1..], id, now) > 0 {
        var i :| 0 <= i < |views[1..]| && views[1..][i].adId == id && IsRecent(views[1..][i], now);
        assert views[1..][i] == views[i + 1];
      }
    }
  }

  /** "Shown recently" is given exactly when this ad has a view less than 24 hours old. */
  lemma ShownRecentlyReason(ad: Ad, prefs: seq<CategoryPreference>, b: UserBehavior, cache: seq<Ad>, now: int)
    ensures var r := ScoreAd(ad, prefs, b, cache, now);
      (ShownRecently in r.reasons)
        <==> exists i :: 0 <= i < |b.views| && b.views[i].adId == ad.id && IsRecent(b.views[i], now)
  {
    FixedReasonKinds();
    ReasonComesFromItsSignal(ShownRecently, ad, prefs, b, cache, now);
    RecentViewsExist(b.views, ad.id, now);
  }

  /** Every preference carries a documented 0..100 score. */
  predicate ValidPreferenceScores(prefs: seq<CategoryPreference>) {
    forall i :: 0 <= i < |prefs| ==> 0 <= prefs[i].score <= 100
  }

  /**
   * Of two ads of the same category and priority, with no views recorded at all, the one already
   * clicked scores strictly below the one never shown: the click penalty outweighs the category boost.
   */
  lemma ClickedRanksBelowUnseen(clicked: Ad, unseen: Ad, prefs: seq<CategoryPreference>, b: UserBehavior,
                                cache: seq<Ad>, now: int)
    requires clicked.category == unseen.category && clicked.priority == unseen.priority
    requires PriorityInRange(unseen) && ValidPreferenceScores(prefs)
    requires b.views == [] && ClickCount(b.clicks, clicked.id) > 0 && ClickCount(b.clicks, unseen.id) == 0
    ensures ScoreAd(clicked, prefs, b, cache, now).score < ScoreAd(unseen, prefs, b, cache, now).score
    ensures PreviouslyClicked in ScoreAd(clicked, prefs, b, cache, now).reasons
  {
    EngagementReasons(clicked, prefs, b, cache, now);
    var cat := CategorySignal(unseen, prefs).points;
    assert 0.0 <= cat <= 50.0 by {
      var p := FindPreference(prefs, unseen.category);
      if p.Some? {
        var i :| 0 <= i < |prefs| && prefs[i] == p.value;
      }
    }
    NothingViewedNoTagBonus(unseen, b.views, cache);
    NothingViewedNoTagBonus(clicked, b.views, cache);
    assert RawScore(unseen, prefs, b, cache, now) == cat + PriorityPoints(unseen) + 15.0;
    assert RawScore(clicked, prefs, b, cache, now) == cat + PriorityPoints(unseen) - 10.0;
  }
}
