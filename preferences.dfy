/**
 * The preference aggregator (getCategoryPreferences): it turns the view and
 * click history into one normalised 0..100 preference per category.
 *
 * The recency decay e^(-ageInDays / 7) is a parameter `decay`, applied to the
 * age of an event in milliseconds (`now - timestamp`); `now` stands for the
 * clock reading taken once per call.
 */
module Preferences {
  import opened Types
  import opened JsMath
  import opened Sorting

  /** Math.exp is positive everywhere, so the decay factor of any age is. */
  ghost predicate ValidDecay(decay: int -> real) {
    forall age :: 0.0 < decay(age)
  }

  /** View durations are seconds and never negative. */
  predicate NonNegativeDurations(views: seq<ViewEvent>) {
    forall i :: 0 <= i < |views| ==> 0.0 <= views[i].duration
  }

  // The four running sums, one per pass over the history. Each is defined by
  // its last event so that it follows the order in which the passes add.

  /** First pass: each view adds duration / 5 to its own category. */
  function ViewDurationPoints(views: seq<ViewEvent>, c: AdCategory): real {
    if views == [] then 0.0
    else
      var v := views[|views| - 1];
      ViewDurationPoints(views[..|views| - 1], c) + (if v.category == c then 1.0 * (v.duration / 5.0) else 0.0)
  }

  /** Second pass: each click adds 5 to its own category. */
  function ClickPoints(clicks: seq<ClickEvent>, c: AdCategory): real {
    if clicks == [] then 0.0
    else
      var k := clicks[|clicks| - 1];
      ClickPoints(clicks[..|clicks| - 1], c) + (if k.category == c then 5.0 else 0.0)
  }

  /** Third pass: each view adds half its decay factor. */
  function ViewDecayPoints(views: seq<ViewEvent>, c: AdCategory, now: int, decay: int -> real): real {
    if views == [] then 0.0
    else
      var v := views[|views| - 1];
      ViewDecayPoints(views[..|views| - 1], c, now, decay)
        + (if v.category == c then decay(now - v.timestamp) * 0.5 else 0.0)
  }

  /** Fourth pass: each click adds twice its decay factor. */
  function ClickDecayPoints(clicks: seq<ClickEvent>, c: AdCategory, now: int, decay: int -> real): real {
    if clicks == [] then 0.0
    else
      var k := clicks[|clicks| - 1];
      ClickDecayPoints(clicks[..|clicks| - 1], c, now, decay)
        + (if k.category == c then decay(now - k.timestamp) * 2.0 else 0.0)
  }

  /** The running score of category `c` once all four passes are done. */
  function RunningScore(b: UserBehavior, c: AdCategory, now: int, decay: int -> real): real {
    ViewDurationPoints(b.views, c) + ClickPoints(b.clicks, c)
      + ViewDecayPoints(b.views, c, now, decay) + ClickDecayPoints(b.clicks, c, now, decay)
  }

  /** The running scores in enumeration order (Object.values of the record). */
  function RunningScores(b: UserBehavior, now: int, decay: int -> real): (xs: seq<real>)
    ensures |xs| == |AllCategories|
  {
    seq(|AllCategories|, i requires 0 <= i < |AllCategories| => RunningScore(b, AllCategories[i], now, decay))
  }

  /** The divisor: the largest running score, but at least 1. */
  function MaxScore(b: UserBehavior, now: int, decay: int -> real): real {
    MaxWithFloor(RunningScores(b, now, decay), 1.0)
  }

  /** Normalisation of one running score against the divisor. */
  function Normalise(score: real, maxScore: real): int
    requires maxScore >= 1.0
  {
    Round(score / maxScore * 100.0)
  }

  /** One preference per category, from running scores given in enumeration order. */
  function Normalised(xs: seq<real>): (ps: seq<CategoryPreference>)
    requires |xs| == |AllCategories|
    ensures |ps| == |AllCategories|
    ensures forall i :: 0 <= i < |ps| ==> ps[i].category == AllCategories[i]
  {
    var m := MaxWithFloor(xs, 1.0);
    seq(|AllCategories|, i requires 0 <= i < |AllCategories| =>
      CategoryPreference(AllCategories[i], Normalise(xs[i], m)))
  }

  /** The preferences before sorting, in enumeration order. */
  function UnsortedPreferences(b: UserBehavior, now: int, decay: int -> real): (ps: seq<CategoryPreference>)
    ensures |ps| == |AllCategories|
    ensures forall i :: 0 <= i < |ps| ==> ps[i].category == AllCategories[i]
  {
    Normalised(RunningScores(b, now, decay))
  }

  function PrefScore(p: CategoryPreference): int { p.score }

  function PrefCategory(p: CategoryPreference): AdCategory { p.category }

  /** The categories of a preference list, in its order. */
  function CategoriesOf(ps: seq<CategoryPreference>): (cs: seq<AdCategory>)
  {
    seq(|ps|, i requires 0 <= i < |ps| => ps[i].category)
  }

  /** What getCategoryPreferences returns: the preferences, stably sorted by score, highest first. */
  function CategoryPreferences(b: UserBehavior, now: int, decay: int -> real): (r: seq<CategoryPreference>)
    ensures |r| == |AllCategories|
    ensures SortedDesc(r, PrefScore)
    ensures multiset(r) == multiset(UnsortedPreferences(b, now, decay))
  {
    SortDesc(UnsortedPreferences(b, now, decay), PrefScore)
  }

  /** The record of running scores as initialised: every category at 0. */
  function ZeroScores(): (m: map<AdCategory, real>)
    ensures Complete(m) && forall c: AdCategory :: m[c] == 0.0
  {
    var m := map[
      Technology := 0.0, Fashion := 0.0, Food := 0.0, Travel := 0.0,
      Gaming := 0.0, Fitness := 0.0, Entertainment := 0.0, Education := 0.0];
    EveryCategoryIsKey(m);
    m
  }

  lemma EveryCategoryIsKey(m: map<AdCategory, real>)
    requires Technology in m && Fashion in m && Food in m && Travel in m
    requires Gaming in m && Fitness in m && Entertainment in m && Education in m
    ensures forall c: AdCategory :: c in m
  {
    forall c: AdCategory ensures c in m {
      match c
      case Technology => case Fashion => case Food => case Travel =>
      case Gaming => case Fitness => case Entertainment => case Education =>
    }
  }

  /** A record that holds a running score for every category. */
  predicate Complete(scores: map<AdCategory, real>) {
    forall c: AdCategory :: c in scores
  }

  /** First loop: every view adds a fifth of its duration to its own category. */
  method AddViewDurations(views: seq<ViewEvent>, scores: map<AdCategory, real>) returns (out: map<AdCategory, real>)
    requires Complete(scores)
    ensures Complete(out)
    ensures forall c: AdCategory :: out[c] == scores[c] + ViewDurationPoints(views, c)
  {
    out := scores;
    assert views[..0] == [];
    for i := 0 to |views|
      invariant Complete(out)
      invariant forall c: AdCategory :: out[c] == scores[c] + ViewDurationPoints(views[..i], c)
    {
      var v := views[i];
      assert views[..i + 1][..i] == views[..i];
      out := out[v.category := out[v.category] + 1.0 * (v.duration / 5.0)];
    }
    assert views[..|views|] == views;
  }

  /** Second loop: every click adds 5 to its own category. */
  method AddClicks(clicks: seq<ClickEvent>, scores: map<AdCategory, real>) returns (out: map<AdCategory, real>)
    requires Complete(scores)
    ensures Complete(out)
    ensures forall c: AdCategory :: out[c] == scores[c] + ClickPoints(clicks, c)
  {
    out := scores;
    assert clicks[..0] == [];
    for i := 0 to |clicks|
      invariant Complete(out)
      invariant forall c: AdCategory :: out[c] == scores[c] + ClickPoints(clicks[..i], c)
    {
      var k := clicks[i];
      assert clicks[..i + 1][..i] == clicks[..i];
      out := out[k.category := out[k.category] + 5.0];
    }
    assert clicks[..|clicks|] == clicks;
  }

  /** Third loop: every view adds half of its decay factor to its own category. */
  method AddViewDecay(views: seq<ViewEvent>, now: int, decay: int -> real, scores: map<AdCategory, real>)
    returns (out: map<AdCategory, real>)
    requires Complete(scores)
    ensures Complete(out)
    ensures forall c: AdCategory :: out[c] == scores[c] + ViewDecayPoints(views, c, now, decay)
  {
    out := scores;
    assert views[..0] == [];
    for i := 0 to |views|
      invariant Complete(out)
      invariant forall c: AdCategory :: out[c] == scores[c] + ViewDecayPoints(views[..i], c, now, decay)
    {
      var v := views[i];
      assert views[..i + 1][..i] == views[..i];
      out := out[v.category := out[v.category] + decay(now - v.timestamp) * 0.5];
    }
    assert views[..|views|] == views;
  }

  /** Fourth loop: every click adds twice its decay factor to its own category. */
  method AddClickDecay(clicks: seq<ClickEvent>, now: int, decay: int -> real, scores: map<AdCategory, real>)
    returns (out: map<AdCategory, real>)
    requires Complete(scores)
    ensures Complete(out)
    ensures forall c: AdCategory :: out[c] == scores[c] + ClickDecayPoints(clicks, c, now, decay)
  {
    out := scores;
    assert clicks[..0] == [];
    for i := 0 to |clicks|
      invariant Complete(out)
      invariant forall c: AdCategory :: out[c] == scores[c] + ClickDecayPoints(clicks[..i], c, now, decay)
    {
      var k := clicks[i];
      assert clicks[..i + 1][..i] == clicks[..i];
      out := out[k.category := out[k.category] + decay(now - k.timestamp) * 2.0];
    }
    assert clicks[..|clicks|] == clicks;
  }

  /** getCategoryPreferences: the four passes over a record of running scores, then normalise and sort. */
  method ComputeCategoryPreferences(behavior: UserBehavior, now: int, decay: int -> real)
    returns (prefs: seq<CategoryPreference>)
    ensures prefs == CategoryPreferences(behavior, now, decay)
  {
    var scores := ZeroScores();
    scores := AddViewDurations(behavior.views, scores);
    scores := AddClicks(behavior.clicks, scores);
    scores := AddViewDecay(behavior.views, now, decay, scores);
    scores := AddClickDecay(behavior.clicks, now, decay, scores);
    var values := seq(|AllCategories|, i requires 0 <= i < |AllCategories| => scores[AllCategories[i]]);
    assert values == RunningScores(behavior, now, decay);
    prefs := SortDesc(Normalised(values), PrefScore);
  }

  // ----- properties -----

  /** Exactly one entry per category of the enumeration, whatever the history. */
  lemma OnePerCategory(b: UserBehavior, now: int, decay: int -> real)
    ensures var r := CategoryPreferences(b, now, decay);
      && |r| == |AllCategories|
      && (forall c: AdCategory :: c in CategoriesOf(r))
      && (forall i, j :: 0 <= i < j < |r| ==> r[i].category != r[j].category)
  {
    var u := UnsortedPreferences(b, now, decay);
    var r := CategoryPreferences(b, now, decay);
    AllCategoriesDistinct();
    assert DistinctBy(u, PrefCategory);
    SortDescKeepsDistinct(u, PrefScore, PrefCategory);
    forall c: AdCategory ensures c in CategoriesOf(r) {
      var k := CategoryIndex(c);
      assert u[k] in multiset(r);
      var i :| 0 <= i < |r| && r[i] == u[k];
      assert CategoriesOf(r)[i] == c;
    }
    forall i, j | 0 <= i < j < |r| ensures r[i].category != r[j].category {
      assert PrefCategory(r[i]) != PrefCategory(r[j]);
    }
  }

  /** Stability: the categories sharing one score stay in enumeration order. */
  lemma EqualScoresKeepEnumerationOrder(b: UserBehavior, now: int, decay: int -> real, k: int)
    ensures WithKey(CategoryPreferences(b, now, decay), PrefScore, k)
         == WithKey(UnsortedPreferences(b, now, decay), PrefScore, k)
  {
    SortDescStable(UnsortedPreferences(b, now, decay), PrefScore, k);
  }

  lemma {:induction false} NoEventsNoPoints(b: UserBehavior, c: AdCategory, now: int, decay: int -> real)
    requires b.views == [] && b.clicks == []
    ensures RunningScore(b, c, now, decay) == 0.0
  {
  }

  /** With no views and no clicks every preference is 0, because the divisor floor is 1. */
  lemma EmptyHistoryAllZero(b: UserBehavior, now: int, decay: int -> real)
    requires b.views == [] && b.clicks == []
    ensures forall p :: p in CategoryPreferences(b, now, decay) ==> p.score == 0
  {
    var xs := RunningScores(b, now, decay);
    assert forall i :: 0 <= i < |xs| ==> xs[i] == 0.0;
    var m := MaxScore(b, now, decay);
    assert m == 1.0;
    var u := UnsortedPreferences(b, now, decay);
    forall p | p in CategoryPreferences(b, now, decay) ensures p.score == 0 {
      assert p in multiset(u);
      var i :| 0 <= i < |u| && u[i] == p;
      assert p.score == Normalise(0.0, 1.0);
    }
  }

  lemma {:induction false} ViewPointsNonNegative(views: seq<ViewEvent>, c: AdCategory, now: int, decay: int -> real)
    requires NonNegativeDurations(views) && ValidDecay(decay)
    ensures 0.0 <= ViewDurationPoints(views, c) && 0.0 <= ViewDecayPoints(views, c, now, decay)
  {
    if views != [] {
      var v := views[|views| - 1];
      ViewPointsNonNegative(views[..|views| - 1], c, now, decay);
      assert 0.0 <= v.duration && 0.0 < decay(now - v.timestamp);
    }
  }

  lemma {:induction false} ClickPointsNonNegative(clicks: seq<ClickEvent>, c: AdCategory, now: int, decay: int -> real)
    requires ValidDecay(decay)
    ensures 0.0 <= ClickPoints(clicks, c) && 0.0 <= ClickDecayPoints(clicks, c, now, decay)
  {
    if clicks != [] {
      var k := clicks[|clicks| - 1];
      ClickPointsNonNegative(clicks[..|clicks| - 1], c, now, decay);
      assert 0.0 < decay(now - k.timestamp);
    }
  }

  lemma NormaliseInRange(score: real, maxScore: real)
    requires 0.0 <= score <= maxScore && 1.0 <= maxScore
    ensures 0 <= Normalise(score, maxScore) <= 100
    ensures score == maxScore ==> Normalise(score, maxScore) == 100
  {
    var q := score / maxScore;
    assert q * maxScore == score;
    assert 0.0 <= q <= 1.0;
    RoundBounds(q * 100.0, 0, 100);
  }

  /** Every preference score lies in 0..100 when durations are non-negative. */
  lemma PreferenceScoresInRange(b: UserBehavior, now: int, decay: int -> real)
    requires NonNegativeDurations(b.views) && ValidDecay(decay)
    ensures forall p :: p in CategoryPreferences(b, now, decay) ==> 0 <= p.score <= 100
  {
    var xs := RunningScores(b, now, decay);
    var m := MaxScore(b, now, decay);
    var u := UnsortedPreferences(b, now, decay);
    forall p | p in CategoryPreferences(b, now, decay) ensures 0 <= p.score <= 100 {
      assert p in multiset(u);
      var i :| 0 <= i < |u| && u[i] == p;
      ViewPointsNonNegative(b.views, AllCategories[i], now, decay);
      ClickPointsNonNegative(b.clicks, AllCategories[i], now, decay);
      assert xs[i] <= m;
      NormaliseInRange(xs[i], m);
    }
  }

  /** No running score normalises above 100: none exceeds the divisor. */
  lemma NormaliseAtMostHundred(score: real, maxScore: real)
    requires score <= maxScore && 1.0 <= maxScore
    ensures Normalise(score, maxScore) <= 100
  {
    var q := score / maxScore;
    assert q * maxScore == score;
    assert q <= 1.0;
  }

  /**
   * Once some running score reaches 1, the head of the sorted list scores
   * exactly 100, whatever the durations and the decay.
   */
  lemma TopCategoryScoresHundred(b: UserBehavior, now: int, decay: int -> real, c: AdCategory)
    requires RunningScore(b, c, now, decay) >= 1.0
    ensures CategoryPreferences(b, now, decay)[0].score == 100
  {
    var r := CategoryPreferences(b, now, decay);
    SomeCategoryScoresHundred(b, now, decay, c);
    var p :| p in r && p.score == 100;
    var j :| 0 <= j < |r| && r[j] == p;
    assert PrefScore(r[0]) >= PrefScore(r[j]);
    NoScoreAboveHundred(b, now, decay);
    assert r[0] in r;
  }

  /** Once some running score reaches 1, some category scores exactly 100. */
  lemma SomeCategoryScoresHundred(b: UserBehavior, now: int, decay: int -> real, c: AdCategory)
    requires RunningScore(b, c, now, decay) >= 1.0
    ensures exists p :: p in CategoryPreferences(b, now, decay) && p.score == 100
  {
    var xs := RunningScores(b, now, decay);
    var m := MaxScore(b, now, decay);
    var u := UnsortedPreferences(b, now, decay);
    var r := CategoryPreferences(b, now, decay);
    assert xs[CategoryIndex(c)] >= 1.0;
    var i :| 0 <= i < |xs| && xs[i] == m;
    MaxCategoryScoresHundred(b, now, decay);
    assert u[i] in multiset(r);
    assert u[i] in r && RunningScore(b, u[i].category, now, decay) == m;
  }

  /** No category scores above 100, whatever the durations and the decay. */
  lemma NoScoreAboveHundred(b: UserBehavior, now: int, decay: int -> real)
    ensures forall p :: p in CategoryPreferences(b, now, decay) ==> p.score <= 100
  {
    var xs := RunningScores(b, now, decay);
    var m := MaxScore(b, now, decay);
    var u := UnsortedPreferences(b, now, decay);
    forall p | p in CategoryPreferences(b, now, decay) ensures p.score <= 100 {
      assert p in multiset(u);
      var h :| 0 <= h < |u| && u[h] == p;
      NormaliseAtMostHundred(xs[h], m);
    }
  }

  /**
   * A category whose running score equals the divisor, that is the largest
   * running score once that is at least 1, scores exactly 100, whatever the
   * durations and the decay.
   */
  lemma MaxCategoryScoresHundred(b: UserBehavior, now: int, decay: int -> real)
    ensures forall p :: p in CategoryPreferences(b, now, decay) ==>
              RunningScore(b, p.category, now, decay) == MaxScore(b, now, decay) ==> p.score == 100
  {
    var xs := RunningScores(b, now, decay);
    var m := MaxScore(b, now, decay);
    var u := UnsortedPreferences(b, now, decay);
    forall p | p in CategoryPreferences(b, now, decay) && RunningScore(b, p.category, now, decay) == m
      ensures p.score == 100
    {
      assert p in multiset(u);
      var i :| 0 <= i < |u| && u[i] == p;
      assert xs[i] == m;
      NormaliseInRange(xs[i], m);
    }
  }

  lemma SingleClickRunningScore(b: UserBehavior, c: AdCategory, now: int, decay: int -> real, click: ClickEvent)
    requires b.views == [] && b.clicks == [click]
    ensures RunningScore(b, c, now, decay)
         == if c == click.category then 5.0 + decay(now - click.timestamp) * 2.0 else 0.0
  {
    var cs := b.clicks;
    assert cs[..|cs| - 1] == [];
    assert ClickPoints(cs, c) == if c == click.category then 5.0 else 0.0;
    assert ClickDecayPoints(cs, c, now, decay) == if c == click.category then decay(now - click.timestamp) * 2.0 else 0.0;
  }

  /** One click in category x and nothing else: x scores 100, every other category 0. */
  lemma SingleClick(b: UserBehavior, now: int, decay: int -> real, click: ClickEvent)
    requires b.views == [] && b.clicks == [click] && ValidDecay(decay)
    ensures forall p :: p in CategoryPreferences(b, now, decay) ==>
      p.score == (if p.category == click.category then 100 else 0)
  {
    var xs := RunningScores(b, now, decay);
    var m := MaxScore(b, now, decay);
    var u := UnsortedPreferences(b, now, decay);
    var top := 5.0 + decay(now - click.timestamp) * 2.0;
    assert 0.0 < decay(now - click.timestamp);
    forall i | 0 <= i < |xs| ensures xs[i] == if AllCategories[i] == click.category then top else 0.0 {
      SingleClickRunningScore(b, AllCategories[i], now, decay, click);
    }
    var k := CategoryIndex(click.category);
    assert xs[k] == top;
    assert m == top;
    forall p | p in CategoryPreferences(b, now, decay)
      ensures p.score == (if p.category == click.category then 100 else 0)
    {
      assert p in multiset(u);
      var i :| 0 <= i < |u| && u[i] == p;
      NormaliseInRange(xs[i], m);
      if AllCategories[i] != click.category {
        assert p.score == Normalise(0.0, m);
      }
    }
  }

  /** A recorded view adds to its own category only: duration / 5 plus half its decay factor. */
  lemma ViewAddsToOwnCategory(b: UserBehavior, v: ViewEvent, c: AdCategory, now: int, decay: int -> real)
    ensures RunningScore(b.(views := b.views + [v]), c, now, decay)
         == RunningScore(b, c, now, decay)
            + (if v.category == c then v.duration / 5.0 + 0.5 * decay(now - v.timestamp) else 0.0)
  {
    var vs := b.views + [v];
    assert vs[..|vs| - 1] == b.views;
  }

  /** A recorded click adds to its own category only: 5 plus twice its decay factor. */
  lemma ClickAddsToOwnCategory(b: UserBehavior, k: ClickEvent, c: AdCategory, now: int, decay: int -> real)
    ensures RunningScore(b.(clicks := b.clicks + [k]), c, now, decay)
         == RunningScore(b, c, now, decay)
            + (if k.category == c then 5.0 + 2.0 * decay(now - k.timestamp) else 0.0)
  {
    var ks := b.clicks + [k];
    assert ks[..|ks| - 1] == b.clicks;
  }
}
