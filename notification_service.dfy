/**
 * The status bot's polling service for the status document (TravisNotificationService): each
 * update fetches the document, reads the cache, saves the fetched document and, when the
 * fetched incidents include ones the cache did not know, hands those to the subscriber
 * notification callback.  The fetch result is an input; the callback's calls are recorded.
 */
module NotificationServiceModel {
  import opened Wrappers
  import opened CrudStore
  import opened TravisTypes
  import opened StoreServiceModel

  /** `getNewIncidents(cachedData, receivedData)`: the received incidents whose id the cache
      does not hold, or None when there is nothing new to report. */
  function NewIncidents(cached: TravisStatus, received: TravisStatus): (r: Option<seq<Incident>>)
    ensures !HasIncidents(received) ==> r.None?
    ensures HasIncidents(received) && !HasIncidents(cached) ==> r == received.incidents
    ensures r.Some? ==> |r.value| > 0
    ensures r.Some? && HasIncidents(cached) ==>
      forall x :: x in r.value <==> x in received.incidents.value && x.id !in Ids(cached.incidents.value)
    ensures r.None? && HasIncidents(received) ==>
      forall x :: x in received.incidents.value ==> x.id in Ids(cached.incidents.value)
    ensures r.Some? && HasIncidents(cached) ==>
      r.value == Filter(received.incidents.value, UnknownTo(Ids(cached.incidents.value)))
    ensures r.Some? && HasIncidents(cached) ==>
      forall x :: multiset(r.value)[x] ==
        if x.id in Ids(cached.incidents.value) then 0 else multiset(received.incidents.value)[x]
  {
    if !HasIncidents(received) then None
    else if !HasIncidents(cached) then received.incidents
    else
      var cachedIds := Ids(cached.incidents.value);
      var unseen := Filter(received.incidents.value, UnknownTo(cachedIds));
      FilterCounts(received.incidents.value, UnknownTo(cachedIds));
      if |unseen| > 0 then Some(unseen) else None
  }

  /** The diff `updateData` computes: none at all when there was no cached document. */
  function UpdateDiff(cached: Option<TravisStatus>, fetched: TravisStatus): Option<seq<Incident>>
  {
    if cached.Some? then NewIncidents(cached.value, fetched) else None
  }

  /** What `updateData` resolves to. */
  datatype DataResult = DataResult(newData: Option<TravisStatus>, cachedData: Option<TravisStatus>)

  /** Nothing reported as new is already known: every reported incident was received, and no
      reported id occurs in the cache. */
  lemma NewIncidentsAreNew(cached: TravisStatus, received: TravisStatus, x: Incident)
    requires NewIncidents(cached, received).Some? && x in NewIncidents(cached, received).value
    ensures received.incidents.Some? && x in received.incidents.value
    ensures cached.incidents.Some? ==> forall y :: y in cached.incidents.value ==> y.id != x.id
  {
    if HasIncidents(cached) {
      forall y | y in cached.incidents.value ensures y.id != x.id {
        IdsMember(cached.incidents.value, y.id);
      }
    }
  }

  /** Receiving the cached document again reports nothing new. */
  lemma SameDocumentNothingNew(d: TravisStatus)
    ensures HasIncidents(d) ==> NewIncidents(d, d).None?
  {
    if HasIncidents(d) {
      var ids := Ids(d.incidents.value);
      forall x | x in d.incidents.value ensures x.id in ids {
        IdsMember(d.incidents.value, x.id);
      }
      FilterNone(d.incidents.value, UnknownTo(ids));
    }
  }

  class NotificationService {
    const store: StoreService
    /** The incident lists handed to `notifySubscribers`, in call order. */
    var notified: seq<seq<Incident>>

    constructor (store: StoreService)
      ensures this.store == store && notified == []
    {
      this.store := store;
      notified := [];
    }

    /**
     * `updateData`: with no fetched document nothing is saved and nobody is notified; otherwise
     * the cache is read first, then overwritten, and subscribers hear about the diff against
     * what was read, if any.
     */
    method UpdateData(fetched: Option<TravisStatus>) returns (result: DataResult)
      modifies store.engine, this
      ensures var cached := LoadDataSpec(old(store.engine.State()));
              && result == DataResult(fetched, cached)
              && (fetched.None? ==> store.engine.State() == old(store.engine.State()) && notified == old(notified))
              && (fetched.Some? ==>
                    && store.engine.State() == SaveDataSpec(old(store.engine.State()), fetched.value)
                    && var diff := UpdateDiff(cached, fetched.value);
                       notified == old(notified) + (if diff.Some? then [diff.value] else []))
    {
      var cachedData := store.LoadDataFromCache();
      if fetched.None? {
        return DataResult(None, cachedData);
      }
      store.SaveDataToCache(fetched.value);
      var newIncidents: Option<seq<Incident>> := None;
      if cachedData.Some? {
        newIncidents := NewIncidents(cachedData.value, fetched.value);
      }
      if newIncidents.Some? {
        notified := notified + [newIncidents.value];
      }
      result := DataResult(fetched, cachedData);
    }

    /** `getStatus`: the fetched document when there is one, else what the cache held. */
    method GetStatus(fetched: Option<TravisStatus>) returns (r: Option<TravisStatus>)
      modifies store.engine, this
      ensures r == if fetched.Some? then fetched else LoadDataSpec(old(store.engine.State()))
      ensures fetched.None? ==> store.engine.State() == old(store.engine.State()) && notified == old(notified)
      ensures fetched.Some? ==>
        && store.engine.State() == SaveDataSpec(old(store.engine.State()), fetched.value)
        && var diff := UpdateDiff(LoadDataSpec(old(store.engine.State())), fetched.value);
           notified == old(notified) + (if diff.Some? then [diff.value] else [])
    {
      var result := UpdateData(fetched);
      if result.newData.None? {
        return result.cachedData;
      }
      r := result.newData;
    }
  }

  /** The first update never notifies: with no cached document there is no diff, whatever was
      fetched; and after an update the cache holds the fetched document (when the table can
      be written and read). */
  lemma FirstRunSilentThenCached(s: StoreState<BotRecord>, fetched: TravisStatus)
    ensures LoadDataSpec(s).None? ==> UpdateDiff(LoadDataSpec(s), fetched).None?
    ensures DataTable !in s.writeFaulty && DataTable !in s.readFaulty ==>
              LoadDataSpec(SaveDataSpec(s, fetched)) == Some(fetched)
  {
    SaveThenLoad(s, fetched);
  }

  /** Two updates with the same document: the second reports nothing new, unless the first
      could not write the cache. */
  lemma RepeatUpdateSilent(s: StoreState<BotRecord>, fetched: TravisStatus)
    requires DataTable !in s.writeFaulty
    ensures UpdateDiff(LoadDataSpec(SaveDataSpec(s, fetched)), fetched).None?
  {
    SaveThenLoad(s, fetched);
    SameDocumentNothingNew(fetched);
  }
}
