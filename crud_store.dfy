/**
 * The key/value storage engine (CRUDEngine / FileEngine) that both the api-client cookie
 * shim and the status bot write through, seen only at its interface: records are addressed by
 * a (table, primary key) pair, and an operation fails with "not found", "already exists" or a
 * generic I/O failure.  I/O failures are an input of the model: every read or listing of a table
 * in `readFaulty` fails, and every write to a table in `writeFaulty` fails.
 */
module CrudStore {
  import opened Wrappers

  type Key = (string, string)

  datatype StoreError = RecordNotFound | RecordAlreadyExists | IoFailure

  /** The whole content of an engine: its records, the order in which their keys were created,
      and the tables whose reads and whose writes fail. */
  datatype StoreState<V> = StoreState(records: map<Key, V>, order: seq<Key>,
                                      readFaulty: set<string>, writeFaulty: set<string>)

  /** No element of `s` occurs twice. */
  ghost predicate Distinct<T>(s: seq<T>)
  {
    forall i, j :: 0 <= i < j < |s| ==> s[i] != s[j]
  }

  /** Every record key is listed once in `order`, and only record keys are listed. */
  ghost predicate Wf<V>(s: StoreState<V>)
  {
    && Distinct(s.order)
    && (forall k :: k in s.order <==> k in s.records)
  }

  function ReadSpec<V>(s: StoreState<V>, table: string, key: string): (r: Result<V, StoreError>)
    ensures r.Success? <==> table !in s.readFaulty && (table, key) in s.records
    ensures r.Success? ==> r.value == s.records[(table, key)]
    ensures r.Failure? ==> r.error == (if table in s.readFaulty then IoFailure else RecordNotFound)
  {
    if table in s.readFaulty then Failure(IoFailure)
    else if (table, key) !in s.records then Failure(RecordNotFound)
    else Success(s.records[(table, key)])
  }

  /** Stores `v` under the key, listing the key when it is new. */
  function Put<V>(s: StoreState<V>, table: string, key: string, v: V): StoreState<V>
  {
    var order := if (table, key) in s.records then s.order else s.order + [(table, key)];
    s.(records := s.records[(table, key) := v], order := order)
  }

  function CreateSpec<V>(s: StoreState<V>, table: string, key: string, v: V): (Outcome<StoreError>, StoreState<V>)
  {
    if table in s.writeFaulty then (Fail(IoFailure), s)
    else if (table, key) in s.records then (Fail(RecordAlreadyExists), s)
    else (Pass, Put(s, table, key, v))
  }

  function UpdateSpec<V>(s: StoreState<V>, table: string, key: string, v: V): (Outcome<StoreError>, StoreState<V>)
  {
    if table in s.writeFaulty then (Fail(IoFailure), s)
    else if (table, key) !in s.records then (Fail(RecordNotFound), s)
    else (Pass, Put(s, table, key, v))
  }

  function UpdateOrCreateSpec<V>(s: StoreState<V>, table: string, key: string, v: V): (Outcome<StoreError>, StoreState<V>)
  {
    if table in s.writeFaulty then (Fail(IoFailure), s)
    else (Pass, Put(s, table, key, v))
  }

  /** The primary keys of `table`, in the order the records were created. */
  function KeysIn(order: seq<Key>, table: string): (ks: seq<string>)
    ensures |ks| <= |order|
    ensures forall k :: k in ks <==> (table, k) in order
  {
    if order == [] then []
    else if order[0].0 == table then [order[0].1] + KeysIn(order[1..], table)
    else KeysIn(order[1..], table)
  }

  function ReadAllPrimaryKeysSpec<V>(s: StoreState<V>, table: string): Result<seq<string>, StoreError>
  {
    if table in s.readFaulty then Failure(IoFailure) else Success(KeysIn(s.order, table))
  }

  /** A write leaves the other records as they were and makes the key read back the written
      value, unless reads of its table fail. */
  lemma PutReadBack<V>(s: StoreState<V>, table: string, key: string, v: V, table': string, key': string)
    ensures ReadSpec(Put(s, table, key, v), table', key') ==
            if (table', key') == (table, key) && table !in s.readFaulty then Success(v)
            else ReadSpec(s, table', key')
  {
  }

  /** Writing keeps the key listing duplicate-free and in step with the records. */
  lemma {:induction false} PutWf<V>(s: StoreState<V>, table: string, key: string, v: V)
    requires Wf(s)
    ensures Wf(Put(s, table, key, v))
  {
    var s' := Put(s, table, key, v);
    if (table, key) !in s.records {
      assert s'.order == s.order + [(table, key)];
      forall i, j | 0 <= i < j < |s'.order| ensures s'.order[i] != s'.order[j] {
        if j == |s.order| {
          assert s'.order[i] == s.order[i];
          assert s.order[i] in s.order;
        }
      }
      forall k ensures k in s'.order <==> k in s'.records {
        assert k in s'.order <==> k in s.order || k == (table, key);
      }
    }
  }

  /** A key listed once in `order` appears once in the listing of its table. */
  lemma {:induction false} KeysInDistinct(order: seq<Key>, table: string)
    requires Distinct(order)
    ensures Distinct(KeysIn(order, table))
  {
    if order != [] {
      KeysInDistinct(order[1..], table);
      var rest := KeysIn(order[1..], table);
      if order[0].0 == table {
        forall k | k in rest ensures k != order[0].1 {
          assert (table, k) in order[1..];
          var m :| 0 <= m < |order[1..]| && order[1..][m] == (table, k);
          assert order[m + 1] == (table, k);
        }
        var ks := KeysIn(order, table);
        assert ks == [order[0].1] + rest;
        forall i, j | 0 <= i < j < |ks| ensures ks[i] != ks[j] {
          if i == 0 {
            assert ks[0] == order[0].1 && ks[j] == rest[j - 1];
            assert rest[j - 1] in rest;
          } else {
            assert ks[i] == rest[i - 1] && ks[j] == rest[j - 1];
          }
        }
      } else {
        assert KeysIn(order, table) == rest;
      }
    }
  }

  /**
   * The engine object.  Its operations change the records in place and are stated against the
   * functions above.
   */
  class Engine<V> {
    var records: map<Key, V>
    var order: seq<Key>
    const readFaulty: set<string>
    const writeFaulty: set<string>

    function State(): StoreState<V>
      reads this
    {
      StoreState(records, order, readFaulty, writeFaulty)
    }

    constructor (readFaulty: set<string>, writeFaulty: set<string>)
      ensures State() == StoreState(map[], [], readFaulty, writeFaulty)
    {
      this.records := map[];
      this.order := [];
      this.readFaulty := readFaulty;
      this.writeFaulty := writeFaulty;
    }

    method Read(table: string, key: string) returns (r: Result<V, StoreError>)
      ensures r == ReadSpec(State(), table, key)
    {
      if table in readFaulty {
        r := Failure(IoFailure);
      } else if (table, key) !in records {
        r := Failure(RecordNotFound);
      } else {
        r := Success(records[(table, key)]);
      }
    }

    method Store(table: string, key: string, v: V)
      modifies this
      ensures State() == Put(old(State()), table, key, v)
    {
      if (table, key) !in records {
        order := order + [(table, key)];
      }
      records := records[(table, key) := v];
    }

    method Create(table: string, key: string, v: V) returns (r: Outcome<StoreError>)
      modifies this
      ensures (r, State()) == CreateSpec(old(State()), table, key, v)
    {
      if table in writeFaulty {
        r := Fail(IoFailure);
      } else if (table, key) in records {
        r := Fail(RecordAlreadyExists);
      } else {
        Store(table, key, v);
        r := Pass;
      }
    }

    method Update(table: string, key: string, v: V) returns (r: Outcome<StoreError>)
      modifies this
      ensures (r, State()) == UpdateSpec(old(State()), table, key, v)
    {
      if table in writeFaulty {
        r := Fail(IoFailure);
      } else if (table, key) !in records {
        r := Fail(RecordNotFound);
      } else {
        Store(table, key, v);
        r := Pass;
      }
    }

    method UpdateOrCreate(table: string, key: string, v: V) returns (r: Outcome<StoreError>)
      modifies this
      ensures (r, State()) == UpdateOrCreateSpec(old(State()), table, key, v)
    {
      if table in writeFaulty {
        r := Fail(IoFailure);
      } else {
        Store(table, key, v);
        r := Pass;
      }
    }

    method ReadAllPrimaryKeys(table: string) returns (r: Result<seq<string>, StoreError>)
      ensures r == ReadAllPrimaryKeysSpec(State(), table)
    {
      if table in readFaulty {
        r := Failure(IoFailure);
      } else {
        r := Success(KeysIn(order, table));
      }
    }
  }
}
