/**
 * The ranking half of the engine: the personalized list (score every ad,
 * stable sort by score, then the category-diversity selection), the
 * cold-start list for a viewer without history, and the two small list
 * helpers, trending ads and ads of one category.
 */
module Ranking {
  import opened Types
  import opened JsMath
  import opened Sorting
  import opened Scoring

  function ScoreValue(s: AdScore): int { s.score }
  function ScoredId(s: AdScore): string { s.ad.id }
  function Priority(ad: Ad): int { ad.priority }

  // ---------------------------------------------------------------------
  // Diversity selection (applyDiversity)
  // ---------------------------------------------------------------------

  /** How many entries of `s` belong to category `c`: the `categoryCount` record. */
  function CountIn(s: seq<AdScore>, c: AdCategory): nat {
    if s == [] then 0
    else CountIn(s[..|s| - 1], c) + (if s[|s| - 1].ad.category == c then 1 else 0)
  }

  /** Some entry of `s` is about the ad with this id. */
  predicate ContainsId(s: seq<AdScore>, id: string) {
    exists k :: 0 <= k < |s| && s[k].ad.id == id
  }

  /**
   * The capped pass from position `i` on, with `acc` admitted so far: stop at
   * `limit` entries, admit an entry only while its category is below the cap.
   */
  function FirstPass(s: seq<AdScore>, limit: int, i: nat, acc: seq<AdScore>): seq<AdScore>
    requires i <= |s|
    decreases |s| - i
  {
    if i == |s| || |acc| >= limit then acc
    else if CountIn(acc, s[i].ad.category) < CeilThird(limit) then
      FirstPass(s, limit, i + 1, acc + [s[i]])
    else FirstPass(s, limit, i + 1, acc)
  }

  /** The uncapped pass from position `i` on: admit every id not yet present, up to `limit`. */
  function Backfill(s: seq<AdScore>, limit: int, i: nat, acc: seq<AdScore>): seq<AdScore>
    requires i <= |s|
    decreases |s| - i
  {
    if i == |s| || |acc| >= limit then acc
    else if !ContainsId(acc, s[i].ad.id) then Backfill(s, limit, i + 1, acc + [s[i]])
    else Backfill(s, limit, i + 1, acc)
  }

  /** What applyDiversity returns for the sorted list `s`. */
  function Diversify(s: seq<AdScore>, limit: int): seq<AdScore> {
    var first := FirstPass(s, limit, 0, []);
    if |first| < limit then Backfill(s, limit, 0, first) else first
  }

  lemma CountInAppend(s: seq<AdScore>, x: AdScore, c: AdCategory)
    ensures CountIn(s + [x], c) == CountIn(s, c) + (if x.ad.category == c then 1 else 0)
  {
    assert (s + [x])[..|s|] == s;
  }

  /** applyDiversity: the capped pass, then the backfill when it came up short. */
  method ApplyDiversity(scoredAds: seq<AdScore>, limit: int) returns (result: seq<AdScore>)
    ensures result == Diversify(scoredAds, limit)
  {
    result := [];
    var categoryCount: map<AdCategory, nat> := map[];
    var maxPerCategory := CeilThird(limit);
    for i := 0 to |scoredAds|
      invariant FirstPass(scoredAds, limit, i, result) == FirstPass(scoredAds, limit, 0, [])
      invariant forall c :: CountIn(result, c) == if c in categoryCount then categoryCount[c] else 0
    {
      if |result| >= limit {
        break;
      }
      var category := scoredAds[i].ad.category;
      var count := if category in categoryCount then categoryCount[category] else 0;
      if count < maxPerCategory {
        forall c ensures CountIn(result + [scoredAds[i]], c)
                      == CountIn(result, c) + (if scoredAds[i].ad.category == c then 1 else 0) {
          CountInAppend(result, scoredAds[i], c);
        }
        result := result + [scoredAds[i]];
        categoryCount := categoryCount[category := count + 1];
      }
    }
    ghost var first := result;
    if |result| < limit {
      for i := 0 to |scoredAds|
        invariant Backfill(scoredAds, limit, i, result) == Backfill(scoredAds, limit, 0, first)
      {
        if |result| >= limit {
          break;
        }
        if !ContainsId(result, scoredAds[i].ad.id) {
          result := result + [scoredAds[i]];
        }
      }
    }
  }

  /** The largest number of entries one category may take in the capped pass. */
  function Cap(limit: int): nat {
    if CeilThird(limit) < 0 then 0 else CeilThird(limit)
  }

  /** The capped pass only appends, never past `limit`, and adds nothing once full. */
  lemma {:induction false} FirstPassExtends(s: seq<AdScore>, limit: int, i: nat, acc: seq<AdScore>)
    requires i <= |s|
    ensures var r := FirstPass(s, limit, i, acc);
      && acc <= r
      && (|acc| <= limit ==> |r| <= limit)
      && (|acc| >= limit ==> r == acc)
    decreases |s| - i
  {
    if i < |s| && |acc| < limit {
      if CountIn(acc, s[i].ad.category) < CeilThird(limit) {
        FirstPassExtends(s, limit, i + 1, acc + [s[i]]);
      } else {
        FirstPassExtends(s, limit, i + 1, acc);
      }
    }
  }

  /** Every entry the capped pass holds was admitted before or comes from the rest of the input. */
  lemma {:induction false} FirstPassDrawn(s: seq<AdScore>, limit: int, i: nat, acc: seq<AdScore>)
    requires i <= |s|
    ensures forall x :: x in FirstPass(s, limit, i, acc) ==> x in acc || x in s[i..]
    decreases |s| - i
  {
    if i < |s| && |acc| < limit {
      assert s[i..] == [s[i]] + s[i + 1..];
      if CountIn(acc, s[i].ad.category) < CeilThird(limit) {
        FirstPassDrawn(s, limit, i + 1, acc + [s[i]]);
        assert forall x :: x in acc + [s[i]] ==> x in acc || x == s[i];
      } else {
        FirstPassDrawn(s, limit, i + 1, acc);
      }
    }
  }

  /** A category within the cap stays within it through the capped pass. */
  lemma {:induction false} FirstPassCap(s: seq<AdScore>, limit: int, i: nat, acc: seq<AdScore>)
    requires i <= |s|
    ensures forall c :: CountIn(acc, c) <= Cap(limit) ==> CountIn(FirstPass(s, limit, i, acc), c) <= Cap(limit)
    decreases |s| - i
  {
    if i < |s| && |acc| < limit {
      if CountIn(acc, s[i].ad.category) < CeilThird(limit) {
        FirstPassCap(s, limit, i + 1, acc + [s[i]]);
        forall c | CountIn(acc, c) <= Cap(limit) ensures CountIn(acc + [s[i]], c) <= Cap(limit) {
          CountInAppend(acc, s[i], c);
        }
      } else {
        FirstPassCap(s, limit, i + 1, acc);
      }
    }
  }

  /** What the capped pass promises: it extends, stops at limit, draws from the input and keeps the cap. */
  lemma FirstPassFacts(s: seq<AdScore>, limit: int, i: nat, acc: seq<AdScore>)
    requires i <= |s|
    ensures var r := FirstPass(s, limit, i, acc);
      && acc <= r
      && (|acc| <= limit ==> |r| <= limit)
      && (|acc| >= limit ==> r == acc)
      && (forall x :: x in r ==> x in acc || x in s[i..])
      && (forall c :: CountIn(acc, c) <= Cap(limit) ==> CountIn(r, c) <= Cap(limit))
  {
    FirstPassExtends(s, limit, i, acc);
    FirstPassDrawn(s, limit, i, acc);
    FirstPassCap(s, limit, i, acc);
  }

  /** Admitting the next entry of a distinct-id list keeps the admitted ids distinct and drawn from it. */
  lemma AdmitKeepsDistinct(s: seq<AdScore>, i: nat, acc: seq<AdScore>)
    requires i < |s|
    requires DistinctBy(s, ScoredId) && DistinctBy(acc, ScoredId)
    requires forall x :: x in acc ==> x in s[..i]
    ensures DistinctBy(acc + [s[i]], ScoredId)
    ensures forall x :: x in acc + [s[i]] ==> x in s[..i + 1]
  {
    forall k | 0 <= k < |acc| ensures acc[k].ad.id != s[i].ad.id {
      assert acc[k] in s[..i];
      var m :| 0 <= m < i && s[..i][m] == acc[k];
      assert s[m] == acc[k];
    }
    assert s[..i + 1] == s[..i] + [s[i]];
  }

  lemma {:induction false} FirstPassDistinct(s: seq<AdScore>, limit: int, i: nat, acc: seq<AdScore>)
    requires i <= |s|
    requires DistinctBy(s, ScoredId) && DistinctBy(acc, ScoredId)
    requires forall x :: x in acc ==> x in s[..i]
    ensures DistinctBy(FirstPass(s, limit, i, acc), ScoredId)
    ensures forall x :: x in FirstPass(s, limit, i, acc) ==> x in s
    decreases |s| - i
  {
    if i == |s| || |acc| >= limit {
      assert s[..i] <= s;
    } else if CountIn(acc, s[i].ad.category) < CeilThird(limit) {
      AdmitKeepsDistinct(s, i, acc);
      FirstPassDistinct(s, limit, i + 1, acc + [s[i]]);
    } else {
      assert s[..i + 1] == s[..i] + [s[i]];
      FirstPassDistinct(s, limit, i + 1, acc);
    }
  }

  /** The backfill only appends, and never past `limit`. */
  lemma {:induction false} BackfillExtends(s: seq<AdScore>, limit: int, i: nat, acc: seq<AdScore>)
    requires i <= |s|
    ensures var r := Backfill(s, limit, i, acc);
      acc <= r && (|acc| <= limit ==> |r| <= limit)
    decreases |s| - i
  {
    if i < |s| && |acc| < limit {
      if !ContainsId(acc, s[i].ad.id) {
        BackfillExtends(s, limit, i + 1, acc + [s[i]]);
      } else {
        BackfillExtends(s, limit, i + 1, acc);
      }
    }
  }

  /** Every entry the backfill holds was there before or comes from the rest of the input. */
  lemma {:induction false} BackfillDrawn(s: seq<AdScore>, limit: int, i: nat, acc: seq<AdScore>)
    requires i <= |s|
    ensures forall x :: x in Backfill(s, limit, i, acc) ==> x in acc || x in s[i..]
    decreases |s| - i
  {
    if i < |s| && |acc| < limit {
      assert s[i..] == [s[i]] + s[i + 1..];
      if !ContainsId(acc, s[i].ad.id) {
        BackfillDrawn(s, limit, i + 1, acc + [s[i]]);
        assert forall x :: x in acc + [s[i]] ==> x in acc || x == s[i];
      } else {
        BackfillDrawn(s, limit, i + 1, acc);
      }
    }
  }

  /** Every entry the backfill adds carries an id no earlier entry has. */
  /** Every entry of `r` from position `n` on has an id no earlier entry has. */
  ghost predicate NewIdsDistinct(r: seq<AdScore>, n: int) {
    forall j, k :: 0 <= k < j < |r| && n <= j ==> r[k].ad.id != r[j].ad.id
  }

  lemma {:induction false} BackfillNewIds(s: seq<AdScore>, limit: int, i: nat, acc: seq<AdScore>)
    requires i <= |s|
    ensures NewIdsDistinct(Backfill(s, limit, i, acc), |acc|)
    decreases |s| - i
  {
    if i < |s| && |acc| < limit && !ContainsId(acc, s[i].ad.id) {
      var acc' := acc + [s[i]];
      BackfillNewIds(s, limit, i + 1, acc');
      BackfillExtends(s, limit, i + 1, acc');
      var r := Backfill(s, limit, i, acc);
      forall j, k | 0 <= k < j < |r| && |acc| <= j ensures r[k].ad.id != r[j].ad.id {
        if j == |acc| {
          assert r[j] == acc'[j] && r[k] == acc[k];
        }
      }
    } else if i < |s| && |acc| < limit {
      BackfillNewIds(s, limit, i + 1, acc);
      assert Backfill(s, limit, i, acc) == Backfill(s, limit, i + 1, acc);
    }
  }

  /** What the backfill promises: it extends, stops at limit, draws from the input and adds only new ids. */
  lemma BackfillFacts(s: seq<AdScore>, limit: int, i: nat, acc: seq<AdScore>)
    requires i <= |s|
    ensures var r := Backfill(s, limit, i, acc);
      && acc <= r
      && (|acc| <= limit ==> |r| <= limit)
      && (forall x :: x in r ==> x in acc || x in s[i..])
      && (forall j, k :: 0 <= k < j < |r| && |acc| <= j ==> r[k].ad.id != r[j].ad.id)
  {
    BackfillExtends(s, limit, i, acc);
    BackfillDrawn(s, limit, i, acc);
    BackfillNewIds(s, limit, i, acc);
  }

  /** A set of ids the entries of `s` carry. */
  function IdSet(s: seq<AdScore>): set<string> {
    set k | 0 <= k < |s| :: s[k].ad.id
  }

  lemma {:induction false} IdSetSize(s: seq<AdScore>)
    ensures |IdSet(s)| <= |s|
    ensures DistinctBy(s, ScoredId) ==> |IdSet(s)| == |s|
  {
    if s != [] {
      var t := s[..|s| - 1];
      IdSetSize(t);
      assert IdSet(s) == IdSet(t) + {s[|s| - 1].ad.id} by {
        forall id | id in IdSet(s) ensures id in IdSet(t) + {s[|s| - 1].ad.id} {
          var k :| 0 <= k < |s| && s[k].ad.id == id;
          if k < |s| - 1 {
            assert t[k] == s[k];
          }
        }
      }
      if DistinctBy(s, ScoredId) {
        assert DistinctBy(t, ScoredId);
        assert s[|s| - 1].ad.id !in IdSet(t);
      }
    }
  }

  lemma {:induction false} SubsetSize<T>(a: set<T>, b: set<T>)
    requires a <= b
    ensures |a| <= |b|
  {
    if a != {} {
      var x :| x in a;
      SubsetSize(a - {x}, b - {x});
    }
  }

  /** A distinct-id list drawn from `s` is no longer than `s`; as long when it has all of its ids. */
  lemma DrawnListSize(acc: seq<AdScore>, s: seq<AdScore>)
    requires DistinctBy(acc, ScoredId)
    requires forall x :: x in acc ==> x in s
    ensures |acc| <= |s|
    ensures (forall k :: 0 <= k < |s| ==> ContainsId(acc, s[k].ad.id)) ==> |acc| == |IdSet(s)|
  {
    IdSetSize(acc);
    IdSetSize(s);
    assert IdSet(acc) <= IdSet(s) by {
      forall id | id in IdSet(acc) ensures id in IdSet(s) {
        var k :| 0 <= k < |acc| && acc[k].ad.id == id;
        assert acc[k] in s;
      }
    }
    SubsetSize(IdSet(acc), IdSet(s));
    if forall k :: 0 <= k < |s| ==> ContainsId(acc, s[k].ad.id) {
      assert IdSet(s) <= IdSet(acc) by {
        forall id | id in IdSet(s) ensures id in IdSet(acc) {
          var k :| 0 <= k < |s| && s[k].ad.id == id;
          assert ContainsId(acc, s[k].ad.id);
        }
      }
      SubsetSize(IdSet(s), IdSet(acc));
    }
  }

  /** Backfilling an id not yet present keeps the ids distinct and covers one more input entry. */
  lemma AdmitNewId(s: seq<AdScore>, i: nat, acc: seq<AdScore>)
    requires i < |s|
    requires DistinctBy(acc, ScoredId) && !ContainsId(acc, s[i].ad.id)
    requires forall x :: x in acc ==> x in s
    requires forall k :: 0 <= k < i ==> ContainsId(acc, s[k].ad.id)
    ensures DistinctBy(acc + [s[i]], ScoredId)
    ensures forall x :: x in acc + [s[i]] ==> x in s
    ensures forall k :: 0 <= k < i + 1 ==> ContainsId(acc + [s[i]], s[k].ad.id)
  {
    var d := acc + [s[i]];
    forall j, k | 0 <= j < k < |d| ensures d[j].ad.id != d[k].ad.id {
      if k == |acc| {
        assert d[j] == acc[j];
      }
    }
    forall k | 0 <= k < i + 1 ensures ContainsId(d, s[k].ad.id) {
      if k < i {
        var m :| 0 <= m < |acc| && acc[m].ad.id == s[k].ad.id;
        assert d[m] == acc[m];
      } else {
        assert d[|acc|] == s[i];
      }
    }
  }

  lemma {:induction false} BackfillLength(s: seq<AdScore>, limit: int, i: nat, acc: seq<AdScore>)
    requires i <= |s|
    requires DistinctBy(s, ScoredId) && DistinctBy(acc, ScoredId)
    requires forall x :: x in acc ==> x in s
    requires forall k :: 0 <= k < i ==> ContainsId(acc, s[k].ad.id)
    requires |acc| <= limit
    ensures |Backfill(s, limit, i, acc)| == if limit < |s| then limit else |s|
    decreases |s| - i
  {
    DrawnListSize(acc, s);
    IdSetSize(s);
    if i < |s| && |acc| < limit {
      if !ContainsId(acc, s[i].ad.id) {
        AdmitNewId(s, i, acc);
        BackfillLength(s, limit, i + 1, acc + [s[i]]);
      } else {
        BackfillLength(s, limit, i + 1, acc);
      }
    }
  }

  /** The result never holds more than `limit` entries, and only entries of the input. */
  lemma DiversifyBounds(s: seq<AdScore>, limit: int)
    ensures var r := Diversify(s, limit);
      && (limit <= 0 ==> r == [])
      && (0 <= limit ==> |r| <= limit)
      && (forall x :: x in r ==> x in s)
  {
    FirstPassFacts(s, limit, 0, []);
    var first := FirstPass(s, limit, 0, []);
    if |first| < limit {
      BackfillFacts(s, limit, 0, first);
    }
  }

  /**
   * The diversity guarantee: the capped pass admits at most ceil(limit/3)
   * entries of any category, it is kept in front, the backfill happens only
   * when it came up short, and what the backfill adds carries ids not seen
   * before in the result.
   */
  lemma DiversityCap(s: seq<AdScore>, limit: int)
    ensures var first := FirstPass(s, limit, 0, []); var r := Diversify(s, limit);
      && (0 <= limit ==> forall c :: CountIn(first, c) <= CeilThird(limit))
      && first <= r
      && (r != first ==> |first| < limit)
      && (forall j, k :: 0 <= k < j < |r| && |first| <= j ==> r[k].ad.id != r[j].ad.id)
  {
    FirstPassFacts(s, limit, 0, []);
    var first := FirstPass(s, limit, 0, []);
    if |first| < limit {
      BackfillFacts(s, limit, 0, first);
    }
  }

  /** When the capped pass already fills the list, the cap holds for the whole result. */
  lemma NoBackfillKeepsCap(s: seq<AdScore>, limit: int)
    requires |FirstPass(s, limit, 0, [])| >= limit
    ensures forall c :: CountIn(Diversify(s, limit), c) <= Cap(limit)
  {
    FirstPassFacts(s, limit, 0, []);
  }

  /** With distinct ids the result is exactly as long as min(limit, |s|), with distinct ids. */
  lemma DiversifyLength(s: seq<AdScore>, limit: int)
    requires DistinctBy(s, ScoredId)
    ensures |Diversify(s, limit)| == if limit <= 0 then 0 else if limit < |s| then limit else |s|
    ensures DistinctBy(Diversify(s, limit), ScoredId)
  {
    FirstPassFacts(s, limit, 0, []);
    FirstPassDistinct(s, limit, 0, []);
    var first := FirstPass(s, limit, 0, []);
    if |first| < limit {
      BackfillFacts(s, limit, 0, first);
      BackfillLength(s, limit, 0, first);
      var r := Backfill(s, limit, 0, first);
      forall j, k | 0 <= k < j < |r| ensures r[k].ad.id != r[j].ad.id {
        if j < |first| {
          assert r[k] == first[k] && r[j] == first[j];
        }
      }
    } else {
      DrawnListSize(first, s);
    }
  }

  /** The capped pass walks a score-sorted list, so its entries stay in descending score. */
  /** Admitting the next entry of a score-sorted list keeps the admitted entries sorted and ahead of the rest. */
  lemma AdmitKeepsOrder(s: seq<AdScore>, i: nat, acc: seq<AdScore>)
    requires i < |s|
    requires SortedDesc(s, ScoreValue) && SortedDesc(acc, ScoreValue)
    requires forall x, k :: x in acc && i <= k < |s| ==> x.score >= s[k].score
    ensures SortedDesc(acc + [s[i]], ScoreValue)
    ensures forall x, k :: x in acc + [s[i]] && i + 1 <= k < |s| ==> x.score >= s[k].score
  {
    var d := acc + [s[i]];
    forall a, b | 0 <= a < b < |d| ensures d[a].score >= d[b].score {
      if b == |acc| {
        assert d[a] in acc;
      }
    }
    assert forall x :: x in d ==> x in acc || x == s[i];
  }

  lemma {:induction false} FirstPassKeepsOrder(s: seq<AdScore>, limit: int, i: nat, acc: seq<AdScore>)
    requires i <= |s|
    requires SortedDesc(s, ScoreValue) && SortedDesc(acc, ScoreValue)
    requires forall x, k :: x in acc && i <= k < |s| ==> x.score >= s[k].score
    ensures SortedDesc(FirstPass(s, limit, i, acc), ScoreValue)
    decreases |s| - i
  {
    if i < |s| && |acc| < limit {
      if CountIn(acc, s[i].ad.category) < CeilThird(limit) {
        AdmitKeepsOrder(s, i, acc);
        FirstPassKeepsOrder(s, limit, i + 1, acc + [s[i]]);
      } else {
        FirstPassKeepsOrder(s, limit, i + 1, acc);
      }
    }
  }

  // ---------------------------------------------------------------------
  // Personalized ranking (getPersonalizedAds)
  // ---------------------------------------------------------------------

  /**
   * Every ad scored against the same preferences and history, in catalog
   * order: one entry per ad, about that ad, with a score in 0..100.
   */
  function ScoreAll(ads: seq<Ad>, prefs: seq<CategoryPreference>, b: UserBehavior, cache: seq<Ad>, now: int): (r: seq<AdScore>)
    ensures |r| == |ads|
    ensures forall i :: 0 <= i < |r| ==> r[i].ad == ads[i] && 0 <= r[i].score <= 100
  {
    seq(|ads|, i requires 0 <= i < |ads| => ScoreAd(ads[i], prefs, b, cache, now))
  }

  /** The scored catalog in the stable descending order of score. */
  function RankedByScore(ads: seq<Ad>, prefs: seq<CategoryPreference>, b: UserBehavior, cache: seq<Ad>, now: int): seq<AdScore> {
    SortDesc(ScoreAll(ads, prefs, b, cache, now), ScoreValue)
  }

  /** What getPersonalizedAds returns. */
  function PersonalizedAds(ads: seq<Ad>, prefs: seq<CategoryPreference>, b: UserBehavior, cache: seq<Ad>,
                           now: int, limit: int): seq<AdScore> {
    Diversify(RankedByScore(ads, prefs, b, cache, now), limit)
  }

  /** getPersonalizedAds: score, sort by score, then the diversity selection. */
  method GetPersonalizedAds(ads: seq<Ad>, prefs: seq<CategoryPreference>, b: UserBehavior, cache: seq<Ad>,
                            now: int, limit: int := 10) returns (r: seq<AdScore>)
    ensures r == PersonalizedAds(ads, prefs, b, cache, now, limit)
  {
    var scoredAds := ScoreAll(ads, prefs, b, cache, now);
    var sorted := SortDesc(scoredAds, ScoreValue);
    r := ApplyDiversity(sorted, limit);
  }

  /** Every entry of the personalized list is the score of one catalog ad, within 0..100. */
  lemma PersonalizedEntries(ads: seq<Ad>, prefs: seq<CategoryPreference>, b: UserBehavior, cache: seq<Ad>,
                            now: int, limit: int)
    ensures var r := PersonalizedAds(ads, prefs, b, cache, now, limit);
      && (limit <= 0 ==> r == [])
      && (0 <= limit ==> |r| <= limit)
      && forall x :: x in r ==>
           && x.ad in ads
           && x == ScoreAd(x.ad, prefs, b, cache, now)
           && 0 <= x.score <= 100
  {
    var scored := ScoreAll(ads, prefs, b, cache, now);
    var sorted := RankedByScore(ads, prefs, b, cache, now);
    DiversifyBounds(sorted, limit);
    forall x | x in sorted ensures x.ad in ads && x == ScoreAd(x.ad, prefs, b, cache, now) {
      assert x in multiset(sorted);
      assert x in scored;
    }
  }

  /** With distinct ad ids the personalized list holds min(limit, |ads|) distinct ads. */
  lemma PersonalizedLength(ads: seq<Ad>, prefs: seq<CategoryPreference>, b: UserBehavior, cache: seq<Ad>,
                           now: int, limit: int)
    requires DistinctAdIds(ads)
    ensures var r := PersonalizedAds(ads, prefs, b, cache, now, limit);
      && |r| == (if limit <= 0 then 0 else if limit < |ads| then limit else |ads|)
      && DistinctBy(r, ScoredId)
  {
    var scored := ScoreAll(ads, prefs, b, cache, now);
    assert DistinctBy(scored, ScoredId);
    SortDescKeepsDistinct(scored, ScoreValue, ScoredId);
    DiversifyLength(RankedByScore(ads, prefs, b, cache, now), limit);
  }

  /** The capped pass of the personalized list respects the cap and keeps descending score. */
  lemma PersonalizedDiversity(ads: seq<Ad>, prefs: seq<CategoryPreference>, b: UserBehavior, cache: seq<Ad>,
                              now: int, limit: int)
    ensures var sorted := RankedByScore(ads, prefs, b, cache, now);
      var first := FirstPass(sorted, limit, 0, []);
      && first <= PersonalizedAds(ads, prefs, b, cache, now, limit)
      && (0 <= limit ==> forall c :: CountIn(first, c) <= CeilThird(limit))
      && SortedDesc(first, ScoreValue)
  {
    var sorted := RankedByScore(ads, prefs, b, cache, now);
    DiversityCap(sorted, limit);
    FirstPassKeepsOrder(sorted, limit, 0, []);
  }

  // ---------------------------------------------------------------------
  // Cold start (getColdStartAds)
  // ---------------------------------------------------------------------

  /** The categories present in `s`: the `categories` set. */
  function AdCategories(s: seq<Ad>): set<AdCategory> {
    set x | x in s :: x.category
  }

  /**
   * The greedy walk over the priority-sorted ads from position `i` on: stop at
   * `limit`; admit an ad whose category is new, or any ad once more than half of
   * `limit` is filled.
   */
  function ColdStartFrom(sorted: seq<Ad>, limit: int, i: nat, diverse: seq<Ad>, categories: set<AdCategory>): seq<Ad>
    requires i <= |sorted|
    decreases |sorted| - i
  {
    if i == |sorted| || |diverse| >= limit then diverse
    else if sorted[i].category !in categories || 2 * |diverse| > limit then
      ColdStartFrom(sorted, limit, i + 1, diverse + [sorted[i]], categories + {sorted[i].category})
    else ColdStartFrom(sorted, limit, i + 1, diverse, categories)
  }

  /** What getColdStartAds returns. */
  function ColdStart(ads: seq<Ad>, limit: int): seq<Ad> {
    ColdStartFrom(SortDesc(ads, Priority), limit, 0, [], {})
  }

  /** getColdStartAds: it sorts a copy, so the caller's array is left as it was. */
  method GetColdStartAds(ads: array<Ad>, limit: int := 10) returns (diverse: seq<Ad>)
    ensures diverse == ColdStart(ads[..], limit)
  {
    diverse := [];
    var categories: set<AdCategory> := {};
    var sortedByPriority := SortDesc(ads[..], Priority);
    for i := 0 to |sortedByPriority|
      invariant ColdStartFrom(sortedByPriority, limit, i, diverse, categories) == ColdStart(ads[..], limit)
    {
      if |diverse| >= limit {
        break;
      }
      var ad := sortedByPriority[i];
      if ad.category !in categories || 2 * |diverse| > limit {
        diverse := diverse + [ad];
        categories := categories + {ad.category};
      }
    }
  }

  /** Every ad admitted while at most half of `limit` is filled has a category no earlier ad has. */
  predicate DistinctWhileHalfFull(d: seq<Ad>, limit: int) {
    forall j, k :: 0 <= j < k < |d| && 2 * k <= limit ==> d[j].category != d[k].category
  }

  /** Admitting an ad adds its category to the category set. */
  lemma StepCategories(diverse: seq<Ad>, x: Ad, categories: set<AdCategory>)
    requires categories == AdCategories(diverse)
    ensures categories + {x.category} == AdCategories(diverse + [x])
  {
    assert forall y :: y in diverse + [x] <==> y in diverse || y == x;
  }

  /** The admitted ads stay drawn from the part of the sorted list already walked. */
  lemma StepDrawn(sorted: seq<Ad>, i: nat, diverse: seq<Ad>)
    requires i < |sorted|
    requires multiset(diverse) <= multiset(sorted[..i])
    ensures multiset(diverse + [sorted[i]]) <= multiset(sorted[..i + 1])
  {
    assert sorted[..i + 1] == sorted[..i] + [sorted[i]];
  }

  /** The next sorted ad ranks no higher than any ad already admitted. */
  lemma StepSorted(sorted: seq<Ad>, i: nat, diverse: seq<Ad>)
    requires i < |sorted|
    requires SortedDesc(sorted, Priority)
    requires multiset(diverse) <= multiset(sorted[..i])
    requires SortedDesc(diverse, Priority)
    ensures SortedDesc(diverse + [sorted[i]], Priority)
  {
    var x := sorted[i];
    forall j | 0 <= j < |diverse| ensures diverse[j].priority >= x.priority {
      assert diverse[j] in multiset(sorted[..i]);
      var m :| 0 <= m < i && sorted[..i][m] == diverse[j];
    }
  }

  /** An ad admitted while at most half full has a new category. */
  lemma StepDistinct(diverse: seq<Ad>, x: Ad, categories: set<AdCategory>, limit: int)
    requires categories == AdCategories(diverse)
    requires DistinctWhileHalfFull(diverse, limit)
    requires x.category !in categories || 2 * |diverse| > limit
    ensures DistinctWhileHalfFull(diverse + [x], limit)
  {
    forall j | 0 <= j < |diverse| && 2 * |diverse| <= limit ensures diverse[j].category != x.category {
      assert diverse[j] in diverse;
    }
  }

  /** Admitting the next sorted ad keeps the cold-start invariants. */
  lemma ColdStartStep(sorted: seq<Ad>, limit: int, i: nat, diverse: seq<Ad>, categories: set<AdCategory>)
    requires i < |sorted|
    requires SortedDesc(sorted, Priority)
    requires categories == AdCategories(diverse)
    requires multiset(diverse) <= multiset(sorted[..i])
    requires SortedDesc(diverse, Priority)
    requires DistinctWhileHalfFull(diverse, limit)
    requires sorted[i].category !in categories || 2 * |diverse| > limit
    ensures var d := diverse + [sorted[i]];
      && categories + {sorted[i].category} == AdCategories(d)
      && multiset(d) <= multiset(sorted[..i + 1])
      && SortedDesc(d, Priority)
      && DistinctWhileHalfFull(d, limit)
  {
    StepCategories(diverse, sorted[i], categories);
    StepDrawn(sorted, i, diverse);
    StepSorted(sorted, i, diverse);
    StepDistinct(diverse, sorted[i], categories, limit);
  }

  /** The walk only appends, and never past `limit`. */
  lemma {:induction false} ColdStartFromExtends(sorted: seq<Ad>, limit: int, i: nat, diverse: seq<Ad>,
                                                categories: set<AdCategory>)
    requires i <= |sorted|
    ensures var r := ColdStartFrom(sorted, limit, i, diverse, categories);
      && diverse <= r
      && (|diverse| <= limit ==> |r| <= limit)
    decreases |sorted| - i
  {
    if i < |sorted| && |diverse| < limit {
      var x := sorted[i];
      if x.category !in categories || 2 * |diverse| > limit {
        ColdStartFromExtends(sorted, limit, i + 1, diverse + [x], categories + {x.category});
      } else {
        ColdStartFromExtends(sorted, limit, i + 1, diverse, categories);
      }
    }
  }

  /** Every ad the walk returns comes from the sorted list, no more often than there. */
  lemma {:induction false} ColdStartFromDrawn(sorted: seq<Ad>, limit: int, i: nat, diverse: seq<Ad>,
                                              categories: set<AdCategory>)
    requires i <= |sorted|
    requires multiset(diverse) <= multiset(sorted[..i])
    ensures multiset(ColdStartFrom(sorted, limit, i, diverse, categories)) <= multiset(sorted)
    decreases |sorted| - i
  {
    if i < |sorted| && |diverse| < limit {
      var x := sorted[i];
      if x.category !in categories || 2 * |diverse| > limit {
        StepDrawn(sorted, i, diverse);
        ColdStartFromDrawn(sorted, limit, i + 1, diverse + [x], categories + {x.category});
      } else {
        assert sorted[..i + 1] == sorted[..i] + [x];
        ColdStartFromDrawn(sorted, limit, i + 1, diverse, categories);
      }
    } else {
      assert sorted == sorted[..i] + sorted[i..];
    }
  }

  /** The walk's result is in descending priority and fresh in category while at most half full. */
  lemma {:induction false} ColdStartFromOrder(sorted: seq<Ad>, limit: int, i: nat, diverse: seq<Ad>,
                                              categories: set<AdCategory>)
    requires i <= |sorted|
    requires SortedDesc(sorted, Priority)
    requires categories == AdCategories(diverse)
    requires multiset(diverse) <= multiset(sorted[..i])
    requires SortedDesc(diverse, Priority)
    requires DistinctWhileHalfFull(diverse, limit)
    ensures var r := ColdStartFrom(sorted, limit, i, diverse, categories);
      SortedDesc(r, Priority) && DistinctWhileHalfFull(r, limit)
    decreases |sorted| - i
  {
    if i < |sorted| && |diverse| < limit {
      var x := sorted[i];
      if x.category !in categories || 2 * |diverse| > limit {
        ColdStartStep(sorted, limit, i, diverse, categories);
        ColdStartFromOrder(sorted, limit, i + 1, diverse + [x], categories + {x.category});
      } else {
        assert sorted[..i + 1] == sorted[..i] + [x];
        ColdStartFromOrder(sorted, limit, i + 1, diverse, categories);
      }
    }
  }

  /** The greedy walk keeps all of its invariants to its end. */
  lemma ColdStartFromFacts(sorted: seq<Ad>, limit: int, i: nat, diverse: seq<Ad>, categories: set<AdCategory>)
    requires i <= |sorted|
    requires SortedDesc(sorted, Priority)
    requires categories == AdCategories(diverse)
    requires multiset(diverse) <= multiset(sorted[..i])
    requires SortedDesc(diverse, Priority)
    requires DistinctWhileHalfFull(diverse, limit)
    ensures var r := ColdStartFrom(sorted, limit, i, diverse, categories);
      && diverse <= r
      && (|diverse| <= limit ==> |r| <= limit)
      && multiset(r) <= multiset(sorted)
      && SortedDesc(r, Priority)
      && DistinctWhileHalfFull(r, limit)
  {
    ColdStartFromExtends(sorted, limit, i, diverse, categories);
    ColdStartFromDrawn(sorted, limit, i, diverse, categories);
    ColdStartFromOrder(sorted, limit, i, diverse, categories);
  }

  /**
   * The cold-start list: at most `limit` ads, all drawn from the input, in
   * descending priority, with a fresh category for every ad admitted while at
   * most half of `limit` is filled.
   */
  lemma ColdStartProperties(ads: seq<Ad>, limit: int)
    ensures var r := ColdStart(ads, limit);
      && (limit <= 0 ==> r == [])
      && (0 <= limit ==> |r| <= limit)
      && multiset(r) <= multiset(ads)
      && SortedDesc(r, Priority)
      && DistinctWhileHalfFull(r, limit)
  {
    var sorted := SortDesc(ads, Priority);
    assert AdCategories([]) == {};
    ColdStartFromFacts(sorted, limit, 0, [], {});
  }

  // ---------------------------------------------------------------------
  // Trending ads (getTrendingAds) and ads of one category (getAdsByCategory)
  // ---------------------------------------------------------------------

  /** The end index `slice(0, end)` uses on a list of length `len`: negative counts from the back. */
  function SliceEnd(len: nat, end: int): (e: nat)
    ensures e <= len
    ensures 0 <= end <= len ==> e == end
    ensures len < end ==> e == len
    ensures end < 0 ==> e == if len + end < 0 then 0 else len + end
  {
    if end < 0 then (if len + end < 0 then 0 else len + end)
    else if end > len then len
    else end
  }

  /** What getTrendingAds returns for the ads it is given. */
  function Trending(ads: seq<Ad>, limit: int): seq<Ad> {
    SortDesc(ads, Priority)[..SliceEnd(|ads|, limit)]
  }

  /**
   * getTrendingAds sorts the caller's array itself, in place, and returns a
   * prefix of it.
   */
  method GetTrendingAds(ads: array<Ad>, limit: int := 5) returns (r: seq<Ad>)
    modifies ads
    ensures ads[..] == SortDesc(old(ads[..]), Priority)
    ensures r == Trending(old(ads[..]), limit)
  {
    var sorted := SortDesc(ads[..], Priority);
    forall k | 0 <= k < ads.Length {
      ads[k] := sorted[k];
    }
    assert ads[..] == sorted;
    r := ads[..SliceEnd(ads.Length, limit)];
  }

  /** The trending list is min(limit, |ads|) long, sorted, and drawn from the input. */
  lemma TrendingShape(ads: seq<Ad>, limit: int)
    ensures var r := Trending(ads, limit);
      && (0 <= limit ==> |r| == if limit < |ads| then limit else |ads|)
      && (limit < 0 ==> |r| == if |ads| + limit < 0 then 0 else |ads| + limit)
      && SortedDesc(r, Priority)
      && multiset(r) <= multiset(ads)
  {
    var sorted := SortDesc(ads, Priority);
    var e := SliceEnd(|ads|, limit);
    assert sorted == sorted[..e] + sorted[e..];
  }

  /** No ad left out of the trending list has a higher priority than one kept. */
  lemma TrendingKeepsHighest(ads: seq<Ad>, limit: int)
    ensures var r := Trending(ads, limit);
      forall x, y :: x in r && y in multiset(ads) - multiset(r) ==> x.priority >= y.priority
  {
    var sorted := SortDesc(ads, Priority);
    var e := SliceEnd(|ads|, limit);
    SplitSorted(sorted, e);
    assert sorted == sorted[..e] + sorted[e..];
    assert multiset(ads) - multiset(sorted[..e]) == multiset(sorted[e..]);
  }

  /** In a list sorted by descending priority, the front outranks the back. */
  lemma SplitSorted(sorted: seq<Ad>, e: nat)
    requires e <= |sorted| && SortedDesc(sorted, Priority)
    ensures forall x, y :: x in sorted[..e] && y in sorted[e..] ==> x.priority >= y.priority
  {
    forall x: Ad, y: Ad | x in sorted[..e] && y in sorted[e..] ensures x.priority >= y.priority {
      var i :| 0 <= i < e && sorted[..e][i] == x;
      var j :| 0 <= j < |sorted| - e && sorted[e..][j] == y;
      assert sorted[i] == x && sorted[e + j] == y;
    }
  }

  /** getAdsByCategory: the ads of category `c`, in input order. */
  function AdsByCategory(ads: seq<Ad>, c: AdCategory): (r: seq<Ad>)
    ensures forall x :: x in r <==> x in ads && x.category == c
  {
    if ads == [] then []
    else
      assert ads == [ads[0]] + ads[1..];
      (if ads[0].category == c then [ads[0]] else []) + AdsByCategory(ads[1..], c)
  }

  /** Each ad of category `c` is kept as often as it occurs, every other ad dropped. */
  lemma {:induction false} AdsByCategoryCounts(ads: seq<Ad>, c: AdCategory, x: Ad)
    ensures multiset(AdsByCategory(ads, c))[x] == if x.category == c then multiset(ads)[x] else 0
  {
    if ads != [] {
      AdsByCategoryCounts(ads[1..], c, x);
      assert ads == [ads[0]] + ads[1..];
    }
  }

  /** Filtering distributes over concatenation, so the input order is kept. */
  lemma {:induction false} AdsByCategoryAppend(a: seq<Ad>, b: seq<Ad>, c: AdCategory)
    ensures AdsByCategory(a + b, c) == AdsByCategory(a, c) + AdsByCategory(b, c)
  {
    if a == [] {
      assert a + b == b;
    } else {
      assert (a + b)[0] == a[0];
      assert (a + b)[1..] == a[1..] + b;
      AdsByCategoryAppend(a[1..], b, c);
    }
  }
}
