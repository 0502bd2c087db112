/**
 * The parts of the Travis CI status document that the status bot looks at: the incident list
 * and, per incident, its id, name, creation date and short link.  An absent or empty string
 * field is the empty string here (both are falsy where the bot tests them).
 */
module TravisTypes {
  import opened Wrappers

  datatype Incident = Incident(id: string, name: string, createdAt: string, shortlink: string)

  /** `incidents` is None when the document has no such field. */
  datatype TravisStatus = TravisStatus(incidents: Option<seq<Incident>>)

  /** The incidents of a document, as `if (!incidents || !incidents.length)` sees them. */
  predicate HasIncidents(d: TravisStatus)
  {
    d.incidents.Some? && |d.incidents.value| > 0
  }

  /** `incidents.map(incident => incident.id)`. */
  function Ids(xs: seq<Incident>): (ids: seq<string>)
    ensures |ids| == |xs|
    ensures forall i :: 0 <= i < |xs| ==> ids[i] == xs[i].id
  {
    if xs == [] then [] else [xs[0].id] + Ids(xs[1..])
  }

  /** `xs.filter(p)`: the elements satisfying `p`, in their order. */
  function Filter<T(!new)>(xs: seq<T>, p: T -> bool): (r: seq<T>)
    ensures |r| <= |xs|
    ensures forall x :: x in r <==> x in xs && p(x)
  {
    if xs == [] then []
    else (if p(xs[0]) then [xs[0]] else []) + Filter(xs[1..], p)
  }

  /** Each element occurs in the filtered sequence as often as in the original when it passes,
      and not at all otherwise: the filter neither duplicates nor drops a passing element. */
  lemma {:induction false} FilterMultiplicity<T(!new)>(xs: seq<T>, p: T -> bool, x: T)
    ensures multiset(Filter(xs, p))[x] == if p(x) then multiset(xs)[x] else 0
  {
    if xs != [] {
      FilterMultiplicity(xs[1..], p, x);
      assert xs == [xs[0]] + xs[1..];
      assert multiset(xs) == multiset([xs[0]]) + multiset(xs[1..]);
    }
  }

  /** `FilterMultiplicity` for every element at once. */
  lemma FilterCounts<T(!new)>(xs: seq<T>, p: T -> bool)
    ensures forall x :: multiset(Filter(xs, p))[x] == if p(x) then multiset(xs)[x] else 0
  {
    forall x ensures multiset(Filter(xs, p))[x] == if p(x) then multiset(xs)[x] else 0 {
      FilterMultiplicity(xs, p, x);
    }
  }

  /** The test of the notification diff: the incident's id is not among `ids`. */
  function UnknownTo(ids: seq<string>): Incident -> bool
  {
    (x: Incident) => x.id !in ids
  }

  /** The test of the feed diff: the incident's id is among `ids`. */
  function KnownTo(ids: seq<string>): Incident -> bool
  {
    (x: Incident) => x.id in ids
  }

  /** Filtering a sequence grown by one element at the end extends the filtered sequence by that
      element exactly when it passes, which is what a loop pushing matches one by one builds. */
  lemma {:induction false} FilterSnoc<T(!new)>(xs: seq<T>, x: T, p: T -> bool)
    ensures Filter(xs + [x], p) == Filter(xs, p) + (if p(x) then [x] else [])
  {
    if xs == [] {
      assert xs + [x] == [x];
      assert [x][1..] == [];
    } else {
      assert (xs + [x])[0] == xs[0];
      assert (xs + [x])[1..] == xs[1..] + [x];
      FilterSnoc(xs[1..], x, p);
    }
  }

  /** When no element passes, the filter is empty. */
  lemma {:induction false} FilterNone<T(!new)>(xs: seq<T>, p: T -> bool)
    requires forall x :: x in xs ==> !p(x)
    ensures Filter(xs, p) == []
  {
    if xs != [] {
      assert xs[0] in xs;
      FilterNone(xs[1..], p);
    }
  }

  /** When every element passes, the filter keeps the whole sequence. */
  lemma {:induction false} FilterAll<T(!new)>(xs: seq<T>, p: T -> bool)
    requires forall x :: x in xs ==> p(x)
    ensures Filter(xs, p) == xs
  {
    if xs != [] {
      assert xs[0] in xs;
      FilterAll(xs[1..], p);
    }
  }

  /** An id is among the ids of `xs` exactly when some incident of `xs` carries it. */
  lemma IdsMember(xs: seq<Incident>, id: string)
    ensures id in Ids(xs) <==> exists x :: x in xs && x.id == id
  {
    if id in Ids(xs) {
      var i :| 0 <= i < |xs| && Ids(xs)[i] == id;
      assert xs[i] in xs;
    }
    if exists x :: x in xs && x.id == id {
      var x :| x in xs && x.id == id;
      var i :| 0 <= i < |xs| && xs[i] == x;
      assert Ids(xs)[i] == id;
    }
  }
}
