/**
 * The viewer's interaction history as the behavior provider holds it: views
 * and clicks that only ever grow, until one reset clears everything.
 * Every update replaces the whole state; the clock reading the provider
 * takes when it records an event is the parameter `now`.
 */
module Behavior {
  import opened Types

  class BehaviorStore {
    var views: seq<ViewEvent>
    var clicks: seq<ClickEvent>
    var preferences: seq<CategoryPreference>

    /** The history as one value, the snapshot the aggregator and the engine read. */
    function Snapshot(): (b: UserBehavior)
      reads this
    {
      UserBehavior(views, clicks, preferences)
    }

    /** True when nothing has been recorded; the feed then takes its cold-start path. */
    predicate HasInteractions()
      reads this
    {
      |views| > 0 || |clicks| > 0
    }

    /** The initial behavior when nothing usable was stored: all three lists empty. */
    constructor ()
      ensures views == [] && clicks == [] && preferences == []
      ensures !HasInteractions()
    {
      views, clicks, preferences := [], [], [];
    }

    /** trackView: appends one view of `adId`; the duration defaults to 1 second. */
    method TrackView(adId: string, category: AdCategory, now: int, duration: real := 1.0)
      modifies this
      ensures views == old(views) + [ViewEvent(adId, category, now, duration)]
      ensures clicks == old(clicks) && preferences == old(preferences)
      ensures Extends(old(Snapshot()), Snapshot())
      ensures HasInteractions()
    {
      var viewEvent := ViewEvent(adId, category, now, duration);
      views := views + [viewEvent];
    }

    /** trackClick: appends one click of `adId`. */
    method TrackClick(adId: string, category: AdCategory, now: int)
      modifies this
      ensures clicks == old(clicks) + [ClickEvent(adId, category, now)]
      ensures views == old(views) && preferences == old(preferences)
      ensures Extends(old(Snapshot()), Snapshot())
      ensures HasInteractions()
    {
      var clickEvent := ClickEvent(adId, category, now);
      clicks := clicks + [clickEvent];
    }

    /** clearBehavior: views, clicks and preferences all become empty at once. */
    method ClearBehavior()
      modifies this
      ensures views == [] && clicks == [] && preferences == []
      ensures !HasInteractions()
    {
      views, clicks, preferences := [], [], [];
    }
  }

  /** The history only grows: every recorded event stays, in order, until a reset. */
  ghost predicate Extends(before: UserBehavior, after: UserBehavior) {
    && |before.views| <= |after.views| && after.views[..|before.views|] == before.views
    && |before.clicks| <= |after.clicks| && after.clicks[..|before.clicks|] == before.clicks
  }
}
