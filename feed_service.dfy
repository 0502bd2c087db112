/**
 * The status bot's feed service (TravisFeedService): each update fetches the status document,
 * diffs its incidents against the stored feed, overwrites the stored feed and notifies the
 * subscribers of the diff.  As written, the diff keeps the fetched incidents whose id the
 * stored feed DOES hold (an intersection), unlike the notification service's diff.
 * The store's `getFeedData`/`updateFeedData` are a single feed slot here.
 */
module FeedServiceModel {
  import opened Wrappers
  import opened TravisTypes
  import NotificationServiceModel

  /** The one stored feed document, read by `getFeedData` and replaced by `updateFeedData`. */
  class FeedSlot {
    var feed: TravisStatus

    constructor (initial: TravisStatus)
      ensures feed == initial
    {
      feed := initial;
    }
  }

  /** The diff of `getNewIncidents(data)` against the stored feed `cached`. */
  function FeedDiff(cached: TravisStatus, data: TravisStatus): (r: Option<seq<Incident>>)
    ensures !HasIncidents(data) ==> r.None?
    ensures HasIncidents(data) && !HasIncidents(cached) ==> r == data.incidents
    ensures r.Some? ==> |r.value| > 0
    ensures r.Some? && HasIncidents(cached) ==>
      forall x :: x in r.value <==> x in data.incidents.value && x.id in Ids(cached.incidents.value)
    ensures r.None? && HasIncidents(data) ==>
      forall x :: x in data.incidents.value ==> x.id !in Ids(cached.incidents.value)
    ensures r.Some? && HasIncidents(cached) ==>
      r.value == Filter(data.incidents.value, KnownTo(Ids(cached.incidents.value)))
    ensures r.Some? && HasIncidents(cached) ==>
      forall x :: multiset(r.value)[x] ==
        if x.id in Ids(cached.incidents.value) then multiset(data.incidents.value)[x] else 0
  {
    if !HasIncidents(data) then None
    else if !HasIncidents(cached) then data.incidents
    else
      var cachedIds := Ids(cached.incidents.value);
      var known := Filter(data.incidents.value, KnownTo(cachedIds));
      FilterCounts(data.incidents.value, KnownTo(cachedIds));
      if |known| > 0 then Some(known) else None
  }

  /** Where both documents have incidents, the two services' diffs split the received incidents:
      each one lands in exactly one of them. */
  lemma DiffsSplitReceived(cached: TravisStatus, received: TravisStatus, x: Incident)
    requires HasIncidents(cached) && HasIncidents(received) && x in received.incidents.value
    ensures var feed := FeedDiff(cached, received);
            var notes := NotificationServiceModel.NewIncidents(cached, received);
            (feed.Some? && x in feed.value) != (notes.Some? && x in notes.value)
  {
  }

  /** Fetching the stored feed again reports every one of its incidents as new. */
  lemma SameFeedReportsAll(d: TravisStatus)
    requires HasIncidents(d)
    ensures FeedDiff(d, d) == d.incidents
  {
    var ids := Ids(d.incidents.value);
    forall x | x in d.incidents.value ensures x.id in ids {
      IdsMember(d.incidents.value, x.id);
    }
    FilterAll(d.incidents.value, KnownTo(ids));
  }

  class FeedService {
    const slot: FeedSlot
    /** The incident lists handed to `notifySubscribers`, in call order. */
    var notified: seq<seq<Incident>>

    constructor (slot: FeedSlot)
      ensures this.slot == slot && notified == []
    {
      this.slot := slot;
      notified := [];
    }

    /** `getNewIncidents(data)`: the stored feed is read only once `data` has incidents. */
    method GetNewIncidents(data: TravisStatus) returns (r: Option<seq<Incident>>)
      ensures r == FeedDiff(slot.feed, data)
    {
      if !HasIncidents(data) {
        return None;
      }
      var cachedData := slot.feed;
      r := FeedDiff(cachedData, data);
    }

    /**
     * `updateFeed`: a failed fetch rejects before anything happens; otherwise the diff is taken
     * against the old feed, the feed is overwritten and the diff, if any, is notified.
     */
    method UpdateFeed(fetched: Option<TravisStatus>) returns (ok: bool)
      modifies slot, this
      ensures ok <==> fetched.Some?
      ensures fetched.None? ==> slot.feed == old(slot.feed) && notified == old(notified)
      ensures fetched.Some? ==>
        && slot.feed == fetched.value
        && var diff := FeedDiff(old(slot.feed), fetched.value);
           notified == old(notified) + (if diff.Some? then [diff.value] else [])
    {
      if fetched.None? {
        return false;
      }
      var newIncidents := GetNewIncidents(fetched.value);
      slot.feed := fetched.value;
      if newIncidents.Some? {
        notified := notified + [newIncidents.value];
      }
      ok := true;
    }

    /** `getFeed`: an update, then the stored feed, which is the document just fetched. */
    method GetFeed(fetched: Option<TravisStatus>) returns (r: Option<TravisStatus>)
      modifies slot, this
      ensures r == fetched
      ensures fetched.None? ==> slot.feed == old(slot.feed) && notified == old(notified)
      ensures fetched.Some? ==>
        && slot.feed == fetched.value
        && var diff := FeedDiff(old(slot.feed), fetched.value);
           notified == old(notified) + (if diff.Some? then [diff.value] else [])
    {
      var ok := UpdateFeed(fetched);
      if !ok {
        return None;
      }
      r := Some(slot.feed);
    }
  }
}
