/**
 * The fixed catalog the feed ranks: fifteen ads over the eight categories,
 * with distinct ids, and what the cold-start path makes of it.
 */
module Catalog {
  import opened Types
  import opened Sorting
  import opened Ranking
  import opened Preferences
  import opened Feed

  const MockAds: seq<Ad> :=
    [Ad1, Ad2, Ad3, Ad4, Ad5, Ad6, Ad7, Ad8, Ad9, Ad10, Ad11, Ad12, Ad13, Ad14, Ad15]

  const Ad1: Ad := Ad(
      "ad-1",
      "Latest Smartphone - 50% Off",
      "Get the newest flagship phone with cutting-edge technology",
      "https://images.unsplash.com/photo-1511707171634-5f897ff02aa9?w=400",
      Technology, ["smartphone", "electronics", "gadgets", "mobile"],
      ["tech-enthusiasts", "early-adopters"], "#", 8)

  const Ad2: Ad := Ad(
      "ad-2",
      "Summer Fashion Collection",
      "Trendy outfits for the perfect summer look",
      "https://images.unsplash.com/photo-1490481651871-ab68de25d43d?w=400",
      Fashion, ["clothing", "style", "summer", "apparel"],
      ["fashion-lovers", "young-adults"], "#", 7)

  const Ad3: Ad := Ad(
      "ad-3",
      "Gourmet Meal Kit Delivery",
      "Chef-prepared ingredients delivered to your door",
      "https://images.unsplash.com/photo-1547592166-23ac45744acd?w=400",
      Food, ["cooking", "delivery", "healthy", "organic"],
      ["foodies", "busy-professionals"], "#", 6)

  const Ad4: Ad := Ad(
      "ad-4",
      "Exotic Beach Getaway",
      "Escape to paradise - Book your dream vacation now",
      "https://images.unsplash.com/photo-1506929562872-bb421503ef21?w=400",
      Travel, ["vacation", "beach", "resort", "adventure"],
      ["travelers", "vacation-seekers"], "#", 9)

  const Ad5: Ad := Ad(
      "ad-5",
      "Epic Gaming Bundle",
      "Top-rated games at unbeatable prices",
      "https://images.unsplash.com/photo-1550745165-9bc0b252726f?w=400",
      Gaming, ["video-games", "entertainment", "console", "pc"],
      ["gamers", "tech-enthusiasts"], "#", 8)

  const Ad6: Ad := Ad(
      "ad-6",
      "Premium Fitness Membership",
      "Transform your body with expert trainers",
      "https://images.unsplash.com/photo-1534438327276-14e5300c3a48?w=400",
      Fitness, ["health", "gym", "workout", "wellness"],
      ["fitness-enthusiasts", "health-conscious"], "#", 7)

  const Ad7: Ad := Ad(
      "ad-7",
      "Streaming Service - Free Trial",
      "Watch unlimited movies and shows",
      "https://images.unsplash.com/photo-1489599849927-2ee91cede3ba?w=400",
      Entertainment, ["streaming", "movies", "tv-shows", "subscription"],
      ["entertainment-lovers", "binge-watchers"], "#", 8)

  const Ad8: Ad := Ad(
      "ad-8",
      "Online Learning Platform",
      "Master new skills with expert-led courses",
      "https://images.unsplash.com/photo-1501504905252-473c47e087f8?w=400",
      Education, ["learning", "courses", "skills", "certification"],
      ["students", "professionals", "lifelong-learners"], "#", 6)

  const Ad9: Ad := Ad(
      "ad-9",
      "Mechanical Gaming Keyboard",
      "RGB lighting and lightning-fast response",
      "https://images.unsplash.com/photo-1587829741301-dc798b83add3?w=400",
      Technology, ["gaming", "peripherals", "rgb", "mechanical"],
      ["gamers", "tech-enthusiasts"], "#", 7)

  const Ad10: Ad := Ad(
      "ad-10",
      "Designer Sneakers Collection",
      "Limited edition sneakers from top brands",
      "https://images.unsplash.com/photo-1460353581641-37baddab0fa2?w=400",
      Fashion, ["shoes", "sneakers", "limited-edition", "streetwear"],
      ["sneakerheads", "fashion-lovers"], "#", 8)

  const Ad11: Ad := Ad(
      "ad-11",
      "Italian Pasta Making Kit",
      "Create authentic Italian pasta at home",
      "https://images.unsplash.com/photo-1621996346565-e3dbc646d9a9?w=400",
      Food, ["cooking", "italian", "diy", "gourmet"],
      ["cooking-enthusiasts", "foodies"], "#", 5)

  const Ad12: Ad := Ad(
      "ad-12",
      "Adventure Hiking Tours",
      "Explore breathtaking mountain trails",
      "https://images.unsplash.com/photo-1551632811-561732d1e306?w=400",
      Travel, ["hiking", "adventure", "nature", "outdoor"],
      ["adventure-seekers", "nature-lovers"], "#", 7)

  const Ad13: Ad := Ad(
      "ad-13",
      "VR Gaming Headset",
      "Immerse yourself in virtual reality",
      "https://images.unsplash.com/photo-1622979135225-d2ba269cf1ac?w=400",
      Gaming, ["vr", "virtual-reality", "immersive", "technology"],
      ["gamers", "tech-enthusiasts", "early-adopters"], "#", 9)

  const Ad14: Ad := Ad(
      "ad-14",
      "Smart Fitness Watch",
      "Track your health and fitness goals",
      "https://images.unsplash.com/photo-1544117519-31a4b719223d?w=400",
      Fitness, ["wearable", "health", "tracking", "smartwatch"],
      ["fitness-enthusiasts", "tech-enthusiasts"], "#", 8)

  const Ad15: Ad := Ad(
      "ad-15",
      "Concert Tickets Sale",
      "See your favorite artists live",
      "https://images.unsplash.com/photo-1470229722913-7c0e2dbbafd3?w=400",
      Entertainment, ["music", "concert", "live", "events"],
      ["music-lovers", "entertainment-lovers"], "#", 7)

  /** The priorities and categories of the catalog, position by position. */
  const Priorities: seq<int> := [8, 7, 6, 9, 8, 7, 8, 6, 7, 8, 5, 7, 9, 8, 7]
  const Categories: seq<AdCategory> :=
    [Technology, Fashion, Food, Travel, Gaming, Fitness, Entertainment, Education,
     Technology, Fashion, Food, Travel, Gaming, Fitness, Entertainment]

  type Idx = i: int | 0 <= i < 15

  function Prio(i: Idx): int { Priorities[i] }
  function Cat(i: Idx): AdCategory { Categories[i] }

  /** Fifteen ads whose priorities and categories are those of the catalog. */
  predicate CatalogShape(a: seq<Ad>) {
    && |a| == 15
    && forall i :: 0 <= i < 15 ==> a[i].priority == Prio(i) && a[i].category == Cat(i)
  }

  const AdIds: seq<string> :=
    ["ad-1", "ad-2", "ad-3", "ad-4", "ad-5", "ad-6", "ad-7", "ad-8",
     "ad-9", "ad-10", "ad-11", "ad-12", "ad-13", "ad-14", "ad-15"]

  lemma MockAdsIds()
    ensures |MockAds| == |AdIds| && forall i :: 0 <= i < |AdIds| ==> MockAds[i].id == AdIds[i]
  {
  }

  lemma AdIdsDistinct()
    ensures forall i, j :: 0 <= i < j < |AdIds| ==> AdIds[i] != AdIds[j]
  {
  }

  lemma MockAdsDistinctIds()
    ensures DistinctAdIds(MockAds)
  {
    MockAdsIds();
    AdIdsDistinct();
  }

  lemma MockAdsShape()
    ensures CatalogShape(MockAds)
  {
  }

  /** Catalog positions as a list, so that two concrete orders compare structurally. */
  datatype IdxList = Nil | Cons(head: Idx, tail: IdxList)

  function Length(l: IdxList): nat {
    match l
    case Nil => 0
    case Cons(_, t) => 1 + Length(t)
  }

  /** The ads of `a` at the positions of `l`, in that order. */
  function Pick(a: seq<Ad>, l: IdxList): (r: seq<Ad>)
    requires |a| == 15
    ensures |r| == Length(l)
  {
    match l
    case Nil => []
    case Cons(h, t) => [a[h]] + Pick(a, t)
  }

  /** Stable insertion of position `k` by descending catalog priority. */
  function InsertIdx(k: Idx, l: IdxList): IdxList {
    match l
    case Nil => Cons(k, Nil)
    case Cons(h, t) => if Prio(k) >= Prio(h) then Cons(k, l) else Cons(h, InsertIdx(k, t))
  }

  /** The positions k..14 after the stable sort by descending priority. */
  function SortIdx(k: nat): IdxList
    requires k <= 15
    decreases 15 - k
  {
    if k == 15 then Nil else InsertIdx(k, SortIdx(k + 1))
  }

  /** Inserting an ad into picked ads is picking after inserting its position. */
  lemma {:induction false} InsertPick(a: seq<Ad>, k: Idx, l: IdxList)
    requires CatalogShape(a)
    ensures Insert(a[k], Pick(a, l), Priority) == Pick(a, InsertIdx(k, l))
  {
    match l
    case Nil =>
    case Cons(h, t) =>
      var s := Pick(a, l);
      assert s[0] == a[h] && s[1..] == Pick(a, t);
      if Prio(k) < Prio(h) {
        InsertPick(a, k, t);
      }
  }

  /** Sorting the ads from position k on is picking them in the order of SortIdx(k). */
  lemma {:induction false} SortPick(a: seq<Ad>, k: nat)
    requires CatalogShape(a) && k <= 15
    ensures SortDesc(a[k..], Priority) == Pick(a, SortIdx(k))
    decreases 15 - k
  {
    if k < 15 {
      SortPick(a, k + 1);
      assert a[k..][0] == a[k] && a[k..][1..] == a[k + 1..];
      InsertPick(a, k, SortIdx(k + 1));
    }
  }

  /** The catalog positions in the order of the stable sort by descending priority. */
  const ByPriority: IdxList := Cons(3, Cons(12, Cons(0, Cons(4, Cons(6, Cons(9, Cons(13, Cons(1, Cons(5, Cons(8, Cons(11, Cons(14, Cons(2, Cons(7, Cons(10, Nil)))))))))))))))

  lemma SortIdxOfCatalog()
    ensures SortIdx(0) == ByPriority
  {
    assert SortIdx(14) == Cons(14, Nil);
    assert SortIdx(13) == Cons(13, Cons(14, Nil));
    assert SortIdx(12) == Cons(12, Cons(13, Cons(14, Nil)));
    assert SortIdx(11) == Cons(12, Cons(13, Cons(11, Cons(14, Nil))));
    assert SortIdx(10) == Cons(12, Cons(13, Cons(11, Cons(14, Cons(10, Nil)))));
    assert SortIdx(9) == Cons(12, Cons(9, Cons(13, Cons(11, Cons(14, Cons(10, Nil))))));
    assert SortIdx(8) == Cons(12, Cons(9, Cons(13, Cons(8, Cons(11, Cons(14, Cons(10, Nil)))))));
    assert SortIdx(7) == Cons(12, Cons(9, Cons(13, Cons(8, Cons(11, Cons(14, Cons(7, Cons(10, Nil))))))));
    assert SortIdx(6) == Cons(12, Cons(6, Cons(9, Cons(13, Cons(8, Cons(11, Cons(14, Cons(7, Cons(10, Nil)))))))));
    assert SortIdx(5) == Cons(12, Cons(6, Cons(9, Cons(13, Cons(5, Cons(8, Cons(11, Cons(14, Cons(7, Cons(10, Nil))))))))));
    assert SortIdx(4) == Cons(12, Cons(4, Cons(6, Cons(9, Cons(13, Cons(5, Cons(8, Cons(11, Cons(14, Cons(7, Cons(10, Nil)))))))))));
    assert SortIdx(3) == Cons(3, Cons(12, Cons(4, Cons(6, Cons(9, Cons(13, Cons(5, Cons(8, Cons(11, Cons(14, Cons(7, Cons(10, Nil))))))))))));
    assert SortIdx(2) == Cons(3, Cons(12, Cons(4, Cons(6, Cons(9, Cons(13, Cons(5, Cons(8, Cons(11, Cons(14, Cons(2, Cons(7, Cons(10, Nil)))))))))))));
    assert SortIdx(1) == Cons(3, Cons(12, Cons(4, Cons(6, Cons(9, Cons(13, Cons(1, Cons(5, Cons(8, Cons(11, Cons(14, Cons(2, Cons(7, Cons(10, Nil))))))))))))));
  }

  /** The catalog sorted by descending priority, ties kept in catalog order. */
  lemma SortedCatalog(a: seq<Ad>)
    requires CatalogShape(a)
    ensures SortDesc(a, Priority) == Pick(a, ByPriority)
  {
    SortPick(a, 0);
    SortIdxOfCatalog();
    assert a[0..] == a;
  }

  /** The cold-start walk of ColdStartFrom on positions; n ads are taken so far. */
  function WalkIdx(l: IdxList, limit: int, n: nat, categories: set<AdCategory>): IdxList {
    match l
    case Nil => Nil
    case Cons(h, t) =>
      if n >= limit then Nil
      else if Cat(h) !in categories || 2 * n > limit then Cons(h, WalkIdx(t, limit, n + 1, categories + {Cat(h)}))
      else WalkIdx(t, limit, n, categories)
  }

  /** ColdStartFrom over picked ads appends the ads at the positions WalkIdx takes. */
  lemma {:induction false} WalkPick(a: seq<Ad>, s: seq<Ad>, limit: int, i: nat, diverse: seq<Ad>,
                                    categories: set<AdCategory>, l: IdxList)
    requires |a| == 15 && (forall k :: 0 <= k < 15 ==> a[k].category == Cat(k))
    requires i <= |s| && s[i..] == Pick(a, l)
    ensures ColdStartFrom(s, limit, i, diverse, categories) == diverse + Pick(a, WalkIdx(l, limit, |diverse|, categories))
    decreases l
  {
    match l
    case Nil =>
      assert diverse + [] == diverse;
    case Cons(h, t) =>
      assert s[i] == a[h] && s[i + 1..] == Pick(a, t) && s[i].category == Cat(h) by {
        assert s[i..][0] == s[i] && s[i..][1..] == s[i + 1..];
      }
      if |diverse| >= limit {
        assert diverse + [] == diverse;
      } else if Cat(h) !in categories || 2 * |diverse| > limit {
        var rest := Pick(a, WalkIdx(t, limit, |diverse| + 1, categories + {Cat(h)}));
        assert ColdStartFrom(s, limit, i + 1, diverse + [a[h]], categories + {Cat(h)}) == diverse + [a[h]] + rest by {
          WalkPick(a, s, limit, i + 1, diverse + [a[h]], categories + {Cat(h)}, t);
        }
        assert diverse + [a[h]] + rest == diverse + ([a[h]] + rest);
      } else {
        WalkPick(a, s, limit, i + 1, diverse, categories, t);
      }
  }

  /** The positions cold start takes from the sorted catalog with limit 12. */
  const ColdStartPositions: IdxList := Cons(3, Cons(12, Cons(0, Cons(6, Cons(9, Cons(13, Cons(2, Cons(7, Cons(10, Nil)))))))))

  lemma WalkOfCatalog()
    ensures WalkIdx(ByPriority, 12, 0, {}) == ColdStartPositions
  {
    assert WalkIdx(Cons(10, Nil), 12, 8, {Travel, Gaming, Technology, Entertainment, Fashion, Fitness, Food, Education}) == Cons(10, Nil);
    assert {Travel, Gaming, Technology, Entertainment, Fashion, Fitness, Food} + {Cat(7)} == {Travel, Gaming, Technology, Entertainment, Fashion, Fitness, Food, Education};
    assert WalkIdx(Cons(7, Cons(10, Nil)), 12, 7, {Travel, Gaming, Technology, Entertainment, Fashion, Fitness, Food}) == Cons(7, Cons(10, Nil));
    assert {Travel, Gaming, Technology, Entertainment, Fashion, Fitness} + {Cat(2)} == {Travel, Gaming, Technology, Entertainment, Fashion, Fitness, Food};
    assert WalkIdx(Cons(2, Cons(7, Cons(10, Nil))), 12, 6, {Travel, Gaming, Technology, Entertainment, Fashion, Fitness}) == Cons(2, Cons(7, Cons(10, Nil)));
    assert WalkIdx(Cons(14, Cons(2, Cons(7, Cons(10, Nil)))), 12, 6, {Travel, Gaming, Technology, Entertainment, Fashion, Fitness}) == Cons(2, Cons(7, Cons(10, Nil)));
    assert WalkIdx(Cons(11, Cons(14, Cons(2, Cons(7, Cons(10, Nil))))), 12, 6, {Travel, Gaming, Technology, Entertainment, Fashion, Fitness}) == Cons(2, Cons(7, Cons(10, Nil)));
    assert WalkIdx(Cons(8, Cons(11, Cons(14, Cons(2, Cons(7, Cons(10, Nil)))))), 12, 6, {Travel, Gaming, Technology, Entertainment, Fashion, Fitness}) == Cons(2, Cons(7, Cons(10, Nil)));
    assert WalkIdx(Cons(5, Cons(8, Cons(11, Cons(14, Cons(2, Cons(7, Cons(10, Nil))))))), 12, 6, {Travel, Gaming, Technology, Entertainment, Fashion, Fitness}) == Cons(2, Cons(7, Cons(10, Nil)));
    assert WalkIdx(Cons(1, Cons(5, Cons(8, Cons(11, Cons(14, Cons(2, Cons(7, Cons(10, Nil)))))))), 12, 6, {Travel, Gaming, Technology, Entertainment, Fashion, Fitness}) == Cons(2, Cons(7, Cons(10, Nil)));
    assert {Travel, Gaming, Technology, Entertainment, Fashion} + {Cat(13)} == {Travel, Gaming, Technology, Entertainment, Fashion, Fitness};
    assert WalkIdx(Cons(13, Cons(1, Cons(5, Cons(8, Cons(11, Cons(14, Cons(2, Cons(7, Cons(10, Nil))))))))), 12, 5, {Travel, Gaming, Technology, Entertainment, Fashion}) == Cons(13, Cons(2, Cons(7, Cons(10, Nil))));
    assert {Travel, Gaming, Technology, Entertainment} + {Cat(9)} == {Travel, Gaming, Technology, Entertainment, Fashion};
    assert WalkIdx(Cons(9, Cons(13, Cons(1, Cons(5, Cons(8, Cons(11, Cons(14, Cons(2, Cons(7, Cons(10, Nil)))))))))), 12, 4, {Travel, Gaming, Technology, Entertainment}) == Cons(9, Cons(13, Cons(2, Cons(7, Cons(10, Nil)))));
    assert {Travel, Gaming, Technology} + {Cat(6)} == {Travel, Gaming, Technology, Entertainment};
    assert WalkIdx(Cons(6, Cons(9, Cons(13, Cons(1, Cons(5, Cons(8, Cons(11, Cons(14, Cons(2, Cons(7, Cons(10, Nil))))))))))), 12, 3, {Travel, Gaming, Technology}) == Cons(6, Cons(9, Cons(13, Cons(2, Cons(7, Cons(10, Nil))))));
    assert WalkIdx(Cons(4, Cons(6, Cons(9, Cons(13, Cons(1, Cons(5, Cons(8, Cons(11, Cons(14, Cons(2, Cons(7, Cons(10, Nil)))))))))))), 12, 3, {Travel, Gaming, Technology}) == Cons(6, Cons(9, Cons(13, Cons(2, Cons(7, Cons(10, Nil))))));
    assert {Travel, Gaming} + {Cat(0)} == {Travel, Gaming, Technology};
    assert WalkIdx(Cons(0, Cons(4, Cons(6, Cons(9, Cons(13, Cons(1, Cons(5, Cons(8, Cons(11, Cons(14, Cons(2, Cons(7, Cons(10, Nil))))))))))))), 12, 2, {Travel, Gaming}) == Cons(0, Cons(6, Cons(9, Cons(13, Cons(2, Cons(7, Cons(10, Nil)))))));
    assert {Travel} + {Cat(12)} == {Travel, Gaming};
    assert WalkIdx(Cons(12, Cons(0, Cons(4, Cons(6, Cons(9, Cons(13, Cons(1, Cons(5, Cons(8, Cons(11, Cons(14, Cons(2, Cons(7, Cons(10, Nil)))))))))))))), 12, 1, {Travel}) == Cons(12, Cons(0, Cons(6, Cons(9, Cons(13, Cons(2, Cons(7, Cons(10, Nil))))))));
    assert {} + {Cat(3)} == {Travel};
    assert WalkIdx(Cons(3, Cons(12, Cons(0, Cons(4, Cons(6, Cons(9, Cons(13, Cons(1, Cons(5, Cons(8, Cons(11, Cons(14, Cons(2, Cons(7, Cons(10, Nil))))))))))))))), 12, 0, {}) == Cons(3, Cons(12, Cons(0, Cons(6, Cons(9, Cons(13, Cons(2, Cons(7, Cons(10, Nil)))))))));
  }

  lemma PickColdStartPositions(a: seq<Ad>)
    requires |a| == 15
    ensures Pick(a, ColdStartPositions) == [a[3], a[12], a[0], a[6], a[9], a[13], a[2], a[7], a[10]]
  {
    assert Pick(a, Cons(10, Nil)) == [a[10]];
    assert Pick(a, Cons(7, Cons(10, Nil))) == [a[7], a[10]];
    assert Pick(a, Cons(2, Cons(7, Cons(10, Nil)))) == [a[2], a[7], a[10]];
    assert Pick(a, Cons(13, Cons(2, Cons(7, Cons(10, Nil))))) == [a[13], a[2], a[7], a[10]];
    assert Pick(a, Cons(9, Cons(13, Cons(2, Cons(7, Cons(10, Nil)))))) == [a[9], a[13], a[2], a[7], a[10]];
    assert Pick(a, Cons(6, Cons(9, Cons(13, Cons(2, Cons(7, Cons(10, Nil))))))) == [a[6], a[9], a[13], a[2], a[7], a[10]];
    assert Pick(a, Cons(0, Cons(6, Cons(9, Cons(13, Cons(2, Cons(7, Cons(10, Nil)))))))) == [a[0], a[6], a[9], a[13], a[2], a[7], a[10]];
    assert Pick(a, Cons(12, Cons(0, Cons(6, Cons(9, Cons(13, Cons(2, Cons(7, Cons(10, Nil))))))))) == [a[12], a[0], a[6], a[9], a[13], a[2], a[7], a[10]];
    assert Pick(a, Cons(3, Cons(12, Cons(0, Cons(6, Cons(9, Cons(13, Cons(2, Cons(7, Cons(10, Nil)))))))))) == [a[3], a[12], a[0], a[6], a[9], a[13], a[2], a[7], a[10]];
  }

  /**
   * Cold start with limit 12 over any fifteen ads shaped like the catalog:
   * seven ads of distinct categories, then the two ads still left once more
   * than half is filled, nine in all although there are fifteen.
   */
  lemma ColdStartOnCatalog(a: seq<Ad>)
    requires CatalogShape(a)
    ensures ColdStart(a, 12) == [a[3], a[12], a[0], a[6], a[9], a[13], a[2], a[7], a[10]]
    ensures |ColdStart(a, 12)| == 9 < |a|
  {
    var s := SortDesc(a, Priority);
    assert ColdStart(a, 12) == Pick(a, ColdStartPositions) by {
      SortedCatalog(a);
      assert s[0..] == s;
      WalkPick(a, s, 12, 0, [], {}, ByPriority);
      WalkOfCatalog();
    }
    PickColdStartPositions(a);
  }

  /** On the mock catalog: ad-4, ad-13, ad-1, ad-7, ad-10, ad-14, ad-3, ad-8, ad-11. */
  lemma ColdStartOnMockAds()
    ensures ColdStart(MockAds, 12) == [MockAds[3], MockAds[12], MockAds[0], MockAds[6], MockAds[9],
                                       MockAds[13], MockAds[2], MockAds[7], MockAds[10]]
    ensures |ColdStart(MockAds, 12)| == 9 < |MockAds|
  {
    MockAdsShape();
    ColdStartOnCatalog(MockAds);
  }

  /**
   * The feed over the mock catalog with limit 12: nine ads for a viewer
   * without history, twelve as soon as there is a view or a click.
   */
  lemma FeedOnMockAds(b: UserBehavior, cache: seq<Ad>, now: int, decay: int -> real)
    ensures b.views == [] && b.clicks == [] ==> |FeedAds(MockAds, b, cache, now, decay, 12)| == 9
    ensures |b.views| > 0 || |b.clicks| > 0 ==> |FeedAds(MockAds, b, cache, now, decay, 12)| == 12
  {
    if b.views == [] && b.clicks == [] {
      FeedColdStart(MockAds, b, cache, now, decay, 12);
      ColdStartOnMockAds();
    } else {
      FeedPersonalized(MockAds, b, cache, now, decay, 12);
      MockAdsDistinctIds();
      PersonalizedLength(MockAds, CategoryPreferences(b, now, decay), b, cache, now, 12);
    }
  }
}
