/**
 * The record types of the ad personalization engine: ads, the interaction
 * events recorded for one viewer, derived category preferences and the
 * per-ad ranking result.
 */
module Types {

  datatype Option<T> = None | Some(value: T)

  /** The closed enumeration of ad categories. */
  datatype AdCategory =
    | Technology | Fashion | Food | Travel | Gaming | Fitness | Entertainment | Education

  /** The eight categories, in the order they are declared (and initialised). */
  const AllCategories: seq<AdCategory> :=
    [Technology, Fashion, Food, Travel, Gaming, Fitness, Entertainment, Education]

  /** The category's name as it appears in data and in reason texts. */
  function CategoryName(c: AdCategory): string {
    match c
    case Technology => "technology"
    case Fashion => "fashion"
    case Food => "food"
    case Travel => "travel"
    case Gaming => "gaming"
    case Fitness => "fitness"
    case Entertainment => "entertainment"
    case Education => "education"
  }

  /** Position of a category in the enumeration. */
  function CategoryIndex(c: AdCategory): (i: nat)
    ensures i < |AllCategories| && AllCategories[i] == c
  {
    match c
    case Technology => 0
    case Fashion => 1
    case Food => 2
    case Travel => 3
    case Gaming => 4
    case Fitness => 5
    case Entertainment => 6
    case Education => 7
  }

  lemma AllCategoriesDistinct()
    ensures |AllCategories| == 8
    ensures forall i, j :: 0 <= i < j < |AllCategories| ==> AllCategories[i] != AllCategories[j]
    ensures forall c: AdCategory :: c in AllCategories
  {
    forall c: AdCategory ensures c in AllCategories {
      var _ := CategoryIndex(c);
    }
  }

  /** A catalog entry; `priority` is documented as 1..10, higher is more important. */
  datatype Ad = Ad(
    id: string,
    title: string,
    description: string,
    imageUrl: string,
    category: AdCategory,
    tags: seq<string>,
    targetAudience: seq<string>,
    clickUrl: string,
    priority: int)

  /** An ad was displayed; `duration` is in seconds, `timestamp` in epoch milliseconds. */
  datatype ViewEvent = ViewEvent(adId: string, category: AdCategory, timestamp: int, duration: real)

  /** An ad was activated. */
  datatype ClickEvent = ClickEvent(adId: string, category: AdCategory, timestamp: int)

  /** A derived preference; `score` is documented as 0..100. */
  datatype CategoryPreference = CategoryPreference(category: AdCategory, score: int)

  /** The append-only interaction history of one viewer. */
  datatype UserBehavior = UserBehavior(
    views: seq<ViewEvent>,
    clicks: seq<ClickEvent>,
    preferences: seq<CategoryPreference>)

  /** One ranked ad with its score and the reasons behind it. */
  datatype AdScore = AdScore(ad: Ad, score: int, reasons: seq<string>)

  predicate PriorityInRange(ad: Ad) {
    1 <= ad.priority <= 10
  }

  /** Every ad of the catalog carries a documented priority. */
  predicate ValidPriorities(catalog: seq<Ad>) {
    forall i :: 0 <= i < |catalog| ==> PriorityInRange(catalog[i])
  }

  /** No two ads of the sequence share an identifier. */
  predicate DistinctAdIds(ads: seq<Ad>) {
    forall i, j :: 0 <= i < j < |ads| ==> ads[i].id != ads[j].id
  }
}
