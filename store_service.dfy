/**
 * The status bot's store (StoreService): one storage engine holding two tables, `subscribers`
 * (conversation id -> `{isSubscribed}`) and `travis-data` (the single slot `full` caching the
 * last status document).  Write failures are logged and swallowed; read failures turn into
 * "no data", "not subscribed" or "no subscribers".
 */
module StoreServiceModel {
  import opened Wrappers
  import opened CrudStore
  import opened TravisTypes

  const SubscribersTable := "subscribers"
  const DataTable := "travis-data"
  const FullSlot := "full"

  /** A record of either table: a subscription flag or a cached status document. */
  datatype BotRecord = Subscription(isSubscribed: bool) | Status(data: TravisStatus)

  /** Each table holds only its own kind of record; every write of the service keeps this. */
  ghost predicate Tidy(s: StoreState<BotRecord>)
  {
    forall k :: k in s.records ==>
      && (k.0 == SubscribersTable ==> s.records[k].Subscription?)
      && (k.0 == DataTable ==> s.records[k].Status?)
  }

  /** `saveDataToCache(data)`: overwrite the `full` slot; a failure leaves the store as it was. */
  function SaveDataSpec(s: StoreState<BotRecord>, data: TravisStatus): (s': StoreState<BotRecord>)
    ensures s'.readFaulty == s.readFaulty && s'.writeFaulty == s.writeFaulty
    ensures DataTable in s.writeFaulty ==> s' == s
  {
    UpdateOrCreateSpec(s, DataTable, FullSlot, Status(data)).1
  }

  /** `loadDataFromCache()`: the cached document, or None on any read error. */
  function LoadDataSpec(s: StoreState<BotRecord>): (r: Option<TravisStatus>)
    ensures r.Some? <==> (&& DataTable !in s.readFaulty
                          && (DataTable, FullSlot) in s.records
                          && s.records[(DataTable, FullSlot)].Status?)
    ensures r.Some? ==> s.records[(DataTable, FullSlot)] == Status(r.value)
  {
    var read := ReadSpec(s, DataTable, FullSlot);
    if read.Success? && read.value.Status? then Some(read.value.data) else None
  }

  /** `addSubscriber(id)` and `removeSubscriber(id)`: store the flag under the id, creating or
      overwriting the record; a failure leaves the store as it was. */
  function SetFlagSpec(s: StoreState<BotRecord>, id: string, flag: bool): (s': StoreState<BotRecord>)
    ensures s'.readFaulty == s.readFaulty && s'.writeFaulty == s.writeFaulty
    ensures SubscribersTable in s.writeFaulty ==> s' == s
    ensures SubscribersTable !in s.writeFaulty ==> (SubscribersTable, id) in s'.records
  {
    UpdateOrCreateSpec(s, SubscribersTable, id, Subscription(flag)).1
  }

  /** `checkSubscription(id)`: the stored flag, false when the read fails for any reason. */
  function CheckSpec(s: StoreState<BotRecord>, id: string): (r: bool)
    ensures r <==> (&& SubscribersTable !in s.readFaulty
                    && (SubscribersTable, id) in s.records
                    && s.records[(SubscribersTable, id)] == Subscription(true))
  {
    var read := ReadSpec(s, SubscribersTable, id);
    read.Success? && read.value.Subscription? && read.value.isSubscribed
  }

  /** `getSubscribers()`: the listed keys of the subscribers table whose flag is set, in listing
      order; no subscribers when the listing fails. */
  function SubscribersSpec(s: StoreState<BotRecord>): seq<string>
  {
    var listed := ReadAllPrimaryKeysSpec(s, SubscribersTable);
    if listed.Failure? then [] else Filter(listed.value, id => CheckSpec(s, id))
  }

  /** The subscribers are exactly the ids stored with a set flag, each listed once. */
  lemma SubscribersExactly(s: StoreState<BotRecord>, id: string)
    requires Wf(s)
    ensures id in SubscribersSpec(s) <==> CheckSpec(s, id)
    ensures Distinct(SubscribersSpec(s))
  {
    KeysInDistinct(s.order, SubscribersTable);
    if SubscribersTable !in s.readFaulty {
      var ids := KeysIn(s.order, SubscribersTable);
      FilterDistinct(ids, id => CheckSpec(s, id));
      if CheckSpec(s, id) {
        assert (SubscribersTable, id) in s.order;
      }
    }
  }

  lemma {:induction false} FilterDistinct(xs: seq<string>, p: string -> bool)
    requires Distinct(xs)
    ensures Distinct(Filter(xs, p))
  {
    if xs != [] {
      FilterDistinct(xs[1..], p);
      var rest := Filter(xs[1..], p);
      if p(xs[0]) {
        var r := Filter(xs, p);
        assert r == [xs[0]] + rest;
        forall m | 0 <= m < |xs[1..]| ensures xs[1..][m] != xs[0] {
          assert xs[1..][m] == xs[m + 1];
        }
        forall i, j | 0 <= i < j < |r| ensures r[i] != r[j] {
          assert r[j] == rest[j - 1] && rest[j - 1] in rest;
          if i > 0 {
            assert r[i] == rest[i - 1];
          }
        }
      } else {
        assert Filter(xs, p) == rest;
      }
    }
  }

  /** Save-then-load: the cache gives back the document just saved; when writes of the table
      fail nothing changed, and when reads fail there is no data. */
  lemma SaveThenLoad(s: StoreState<BotRecord>, data: TravisStatus)
    ensures LoadDataSpec(SaveDataSpec(s, data)) ==
            if DataTable in s.writeFaulty then LoadDataSpec(s)
            else if DataTable in s.readFaulty then None
            else Some(data)
  {
  }

  /** Setting a flag makes the id read back that flag (when reads of the table work) and leaves
      every other id as it was; in particular `removeSubscriber` keeps the key in the table,
      with its flag cleared. */
  lemma SetFlagThenCheck(s: StoreState<BotRecord>, id: string, flag: bool, other: string)
    requires SubscribersTable !in s.writeFaulty
    ensures CheckSpec(SetFlagSpec(s, id, flag), id) == (flag && SubscribersTable !in s.readFaulty)
    ensures (SubscribersTable, id) in SetFlagSpec(s, id, flag).records
    ensures other != id ==> CheckSpec(SetFlagSpec(s, id, flag), other) == CheckSpec(s, other)
  {
    PutReadBack(s, SubscribersTable, id, Subscription(flag), SubscribersTable, other);
  }

  /** After `addSubscriber(id)` the id is among the subscribers (when reads of the table work),
      after `removeSubscriber(id)` it is not, and no other id changes membership. */
  lemma SetFlagSubscribers(s: StoreState<BotRecord>, id: string, flag: bool, other: string)
    requires Wf(s) && SubscribersTable !in s.writeFaulty
    ensures Wf(SetFlagSpec(s, id, flag))
    ensures id in SubscribersSpec(SetFlagSpec(s, id, flag)) <==> flag && SubscribersTable !in s.readFaulty
    ensures other != id ==> (other in SubscribersSpec(SetFlagSpec(s, id, flag)) <==> other in SubscribersSpec(s))
  {
    var s' := SetFlagSpec(s, id, flag);
    PutWf(s, SubscribersTable, id, Subscription(flag));
    SetFlagThenCheck(s, id, flag, other);
    SubscribersExactly(s', id);
    SubscribersExactly(s', other);
    SubscribersExactly(s, other);
  }

  /** The cache slot and the subscriber table do not interfere. */
  lemma TablesIndependent(s: StoreState<BotRecord>, data: TravisStatus, id: string, flag: bool)
    requires Wf(s)
    ensures SubscribersSpec(SaveDataSpec(s, data)) == SubscribersSpec(s)
    ensures LoadDataSpec(SetFlagSpec(s, id, flag)) == LoadDataSpec(s)
  {
    var s' := SaveDataSpec(s, data);
    if DataTable !in s.writeFaulty {
      KeysInOtherTable(s.order, (DataTable, FullSlot), SubscribersTable);
      assert s'.order == s.order || s'.order == s.order + [(DataTable, FullSlot)];
      forall k ensures CheckSpec(s', k) == CheckSpec(s, k) {
        PutReadBack(s, DataTable, FullSlot, Status(data), SubscribersTable, k);
      }
      if SubscribersTable !in s.readFaulty {
        assert KeysIn(s'.order, SubscribersTable) == KeysIn(s.order, SubscribersTable);
        FilterSame(KeysIn(s.order, SubscribersTable), k => CheckSpec(s', k), k => CheckSpec(s, k));
      }
    }
  }

  lemma {:induction false} KeysInOtherTable(order: seq<Key>, k: Key, table: string)
    requires k.0 != table
    ensures KeysIn(order + [k], table) == KeysIn(order, table)
  {
    if order == [] {
      assert order + [k] == [k];
      assert [k][1..] == [];
    } else {
      assert (order + [k])[1..] == order[1..] + [k];
      KeysInOtherTable(order[1..], k, table);
    }
  }

  lemma {:induction false} FilterSame(xs: seq<string>, p: string -> bool, q: string -> bool)
    requires forall x :: p(x) == q(x)
    ensures Filter(xs, p) == Filter(xs, q)
  {
    if xs != [] {
      FilterSame(xs[1..], p, q);
    }
  }

  /** Every write of the service keeps each table to its own kind of record. */
  lemma WritesKeepTidy(s: StoreState<BotRecord>, data: TravisStatus, id: string, flag: bool)
    requires Tidy(s)
    ensures Tidy(SaveDataSpec(s, data))
    ensures Tidy(SetFlagSpec(s, id, flag))
  {
  }

  /**
   * The service object.  Its engine is shared by every caller; each method is stated against
   * the functions above.
   */
  class StoreService {
    const engine: Engine<BotRecord>

    constructor (engine: Engine<BotRecord>)
      ensures this.engine == engine
    {
      this.engine := engine;
    }

    /** Never reports a failure: the engine's error is dropped. */
    method SaveDataToCache(data: TravisStatus)
      modifies engine
      ensures engine.State() == SaveDataSpec(old(engine.State()), data)
    {
      var _ := engine.UpdateOrCreate(DataTable, FullSlot, Status(data));
    }

    method LoadDataFromCache() returns (r: Option<TravisStatus>)
      ensures r == LoadDataSpec(engine.State())
    {
      var read := engine.Read(DataTable, FullSlot);
      if read.Success? && read.value.Status? {
        r := Some(read.value.data);
      } else {
        r := None;
      }
    }

    method AddSubscriber(id: string)
      modifies engine
      ensures engine.State() == SetFlagSpec(old(engine.State()), id, true)
    {
      var _ := engine.UpdateOrCreate(SubscribersTable, id, Subscription(true));
    }

    method RemoveSubscriber(id: string)
      modifies engine
      ensures engine.State() == SetFlagSpec(old(engine.State()), id, false)
    {
      var _ := engine.UpdateOrCreate(SubscribersTable, id, Subscription(false));
    }

    method CheckSubscription(id: string) returns (r: bool)
      ensures r == CheckSpec(engine.State(), id)
    {
      var read := engine.Read(SubscribersTable, id);
      if read.Success? && read.value.Subscription? {
        r := read.value.isSubscribed;
      } else {
        r := false;
      }
    }

    /** Lists the keys, then checks each one in turn and keeps those that are subscribed. */
    method GetSubscribers() returns (ids: seq<string>)
      ensures ids == SubscribersSpec(engine.State())
    {
      var listed := engine.ReadAllPrimaryKeys(SubscribersTable);
      if listed.Failure? {
        return [];
      }
      var conversationIds := listed.value;
      ghost var st := engine.State();
      ghost var p := id => CheckSpec(st, id);
      ids := [];
      var i := 0;
      while i < |conversationIds|
        invariant 0 <= i <= |conversationIds|
        invariant ids == Filter(conversationIds[..i], p)
      {
        var isSubscribed := CheckSubscription(conversationIds[i]);
        FilterSnoc(conversationIds[..i], conversationIds[i], p);
        assert conversationIds[..i + 1] == conversationIds[..i] + [conversationIds[i]];
        if isSubscribed {
          ids := ids + [conversationIds[i]];
        }
        i := i + 1;
      }
      assert conversationIds[..i] == conversationIds;
      assert st == engine.State() && SubscribersSpec(st) == Filter(conversationIds, p);
    }
  }
}
