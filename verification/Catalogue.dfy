/** The two Postgres tables that every instance shares, the statements the program runs against
    them, and what those statements keep.  Ids of both tables are drawn from sequences, so a
    statement is given fresh ids rather than choosing them. */
module Catalogue {
  import opened Basics
  import opened Decimal

  datatype Provider = Provider(hostname: string, namespace: string, providerType: string)

  /** What one row of `terraform_provider_version` is about, within its provider. */
  datatype Tuple = Tuple(version: string, os: string, arch: string)

  datatype ProviderRow = ProviderRow(provider: Provider, lastRefreshed: Time)

  datatype VersionRow = VersionRow(
    providerId: Id,
    tuple: Tuple,
    artifactId: Option<Id>,
    artifactTimestamp: Option<Time>)

  datatype Tables = Tables(providers: map<Id, ProviderRow>, versions: map<Id, VersionRow>)

  datatype DbError = CheckViolation | UniqueViolation | Unavailable

  const EMPTY: Tables := Tables(map[], map[])

  // ---------------------------------------------------------------- constraints of the schema

  predicate ProviderFits(p: Provider) {
    |p.hostname| <= 253 && |p.namespace| <= 255 && |p.providerType| <= 255
  }

  predicate TupleFits(t: Tuple) {
    |t.version| <= 255 && |t.os| <= 255 && |t.arch| <= 255
  }

  predicate UniqueProvider(t: Tables) {
    forall i, j :: i in t.providers && j in t.providers && t.providers[i].provider == t.providers[j].provider ==> i == j
  }

  predicate UniqueTuple(t: Tables) {
    forall i, j :: (i in t.versions && j in t.versions
                    && t.versions[i].providerId == t.versions[j].providerId
                    && t.versions[i].tuple == t.versions[j].tuple) ==> i == j
  }

  predicate UniqueArtifact(t: Tables) {
    forall i, j :: (i in t.versions && j in t.versions
                    && t.versions[i].artifactId.Some?
                    && t.versions[i].artifactId == t.versions[j].artifactId) ==> i == j
  }

  predicate ConsistentUploadDetails(t: Tables) {
    forall i :: i in t.versions ==> (t.versions[i].artifactId.None? <==> t.versions[i].artifactTimestamp.None?)
  }

  predicate References(t: Tables) {
    forall i :: i in t.versions ==> t.versions[i].providerId in t.providers
  }

  predicate AllFit(t: Tables) {
    (forall i :: i in t.providers ==> ProviderFits(t.providers[i].provider)) &&
    (forall i :: i in t.versions ==> TupleFits(t.versions[i].tuple))
  }

  predicate Constraints(t: Tables) {
    UniqueProvider(t) && UniqueTuple(t) && UniqueArtifact(t) && ConsistentUploadDetails(t) && References(t) && AllFit(t)
  }

  // ---------------------------------------------------------------- what the tables mean

  /** Row `i` joins to provider `p`. */
  predicate Joins(t: Tables, i: Id, p: Provider) {
    i in t.versions && t.versions[i].providerId in t.providers && t.providers[t.versions[i].providerId].provider == p
  }

  function RowsOf(t: Tables, p: Provider): set<Id> {
    set i | i in t.versions && Joins(t, i, p)
  }

  function Tuples(t: Tables, p: Provider): set<Tuple> {
    set i | i in t.versions && Joins(t, i, p) :: t.versions[i].tuple
  }

  /** The version names a listing of the provider shows. */
  function VersionNames(t: Tables, p: Provider): set<string> {
    set i | i in t.versions && Joins(t, i, p) :: t.versions[i].tuple.version
  }

  /** Later tables know everything the earlier ones did: rows stay, under the same id, about the
      same thing, and a row that has an artifact keeps having one. */
  ghost predicate Extends(t: Tables, u: Tables) {
    (forall i :: i in t.providers ==> i in u.providers && u.providers[i].provider == t.providers[i].provider) &&
    (forall i :: i in t.versions ==>
      i in u.versions
      && u.versions[i].providerId == t.versions[i].providerId
      && u.versions[i].tuple == t.versions[i].tuple
      && (t.versions[i].artifactId.Some? ==> u.versions[i].artifactId.Some?))
  }

  lemma ExtendsKeeps(t: Tables, u: Tables, p: Provider)
    requires Constraints(t) && Extends(t, u)
    ensures RowsOf(t, p) <= RowsOf(u, p)
    ensures Tuples(t, p) <= Tuples(u, p)
    ensures VersionNames(t, p) <= VersionNames(u, p)
  {
    forall i | i in RowsOf(t, p) ensures Joins(u, i, p) {}
    forall x | x in Tuples(t, p) ensures x in Tuples(u, p) {
      var i :| i in t.versions && Joins(t, i, p) && t.versions[i].tuple == x;
      assert Joins(u, i, p);
    }
    forall x | x in VersionNames(t, p) ensures x in VersionNames(u, p) {
      var i :| i in t.versions && Joins(t, i, p) && t.versions[i].tuple.version == x;
      assert Joins(u, i, p);
    }
  }

  lemma NamesAreTupleNames(t: Tables, p: Provider)
    ensures VersionNames(t, p) == set x | x in Tuples(t, p) :: x.version
    ensures RowsOf(t, p) == {} <==> Tuples(t, p) == {}
    ensures VersionNames(t, p) == {} <==> Tuples(t, p) == {}
  {
    forall v | v in VersionNames(t, p) ensures v in set x | x in Tuples(t, p) :: x.version {
      var i :| i in t.versions && Joins(t, i, p) && t.versions[i].tuple.version == v;
      assert t.versions[i].tuple in Tuples(t, p);
    }
    forall x | x in Tuples(t, p) ensures x.version in VersionNames(t, p) && RowsOf(t, p) != {} {
      var i :| i in t.versions && Joins(t, i, p) && t.versions[i].tuple == x;
      assert i in RowsOf(t, p);
    }
    if i :| i in RowsOf(t, p) {
      assert t.versions[i].tuple in Tuples(t, p);
    }
    if x :| x in Tuples(t, p) {
      assert x.version in VersionNames(t, p);
    }
  }

  // ---------------------------------------------------------------- storing a response

  function FindProvider(t: Tables, p: Provider): Option<Id>
    requires UniqueProvider(t)
  {
    if exists i :: i in t.providers && t.providers[i].provider == p then
      var i :| i in t.providers && t.providers[i].provider == p;
      Some(i)
    else
      None
  }

  /** Insert the provider, or refresh the timestamp of the row that already holds it. */
  function Upsert(t: Tables, p: Provider, freshId: Id, now: Time): Tables
    requires UniqueProvider(t)
  {
    var id := match FindProvider(t, p) case Some(i) => i case None => freshId;
    t.(providers := t.providers[id := ProviderRow(p, now)])
  }

  predicate HasRow(t: Tables, providerId: Id, x: Tuple) {
    exists i :: i in t.versions && t.versions[i].providerId == providerId && t.versions[i].tuple == x
  }

  datatype Inserted = Inserted(tables: Tables, returned: seq<Tuple>)

  /** Insert one row for each candidate in turn; a candidate already present is skipped and its id is lost. */
  function InsertAll(t: Tables, providerId: Id, candidates: seq<Tuple>, ids: seq<Id>): Inserted
    requires |ids| == |candidates|
    decreases |candidates|
  {
    if candidates == [] then
      Inserted(t, [])
    else if HasRow(t, providerId, candidates[0]) then
      InsertAll(t, providerId, candidates[1..], ids[1..])
    else
      var rest := InsertAll(WithRow(t, providerId, candidates[0], ids[0]), providerId, candidates[1..], ids[1..]);
      Inserted(rest.tables, [candidates[0]] + rest.returned)
  }

  predicate FreshIds(t: Tables, ids: seq<Id>) {
    NoDuplicates(ids) && forall k :: 0 <= k < |ids| ==> ids[k] !in t.versions
  }

  /** One transaction: upsert the provider, insert the candidates, commit; or nothing at all. */
  function Store(t: Tables, p: Provider, candidates: seq<Tuple>, freshId: Id, ids: seq<Id>, now: Time)
    : Result<Inserted, DbError>
    requires UniqueProvider(t) && |ids| == |candidates|
  {
    if !ProviderFits(p) || exists k :: 0 <= k < |candidates| && !TupleFits(candidates[k]) then
      Err(CheckViolation)
    else
      var t' := Upsert(t, p, freshId, now);
      match FindProvider(t', p)
      case Some(id) => Ok(InsertAll(t', id, candidates, ids))
      case None => Ok(Inserted(t', []))
  }

  function SetOf(xs: seq<Tuple>): set<Tuple> {
    set k | 0 <= k < |xs| :: xs[k]
  }

  function TuplesUnder(t: Tables, providerId: Id): set<Tuple> {
    set i | i in t.versions && t.versions[i].providerId == providerId :: t.versions[i].tuple
  }

  lemma TuplesUnderIs(t: Tables, p: Provider, id: Id)
    requires UniqueProvider(t) && References(t) && id in t.providers && t.providers[id].provider == p
    ensures Tuples(t, p) == TuplesUnder(t, id)
  {
    forall i | i in t.versions ensures Joins(t, i, p) <==> t.versions[i].providerId == id {}
  }

  function WithRow(t: Tables, id: Id, x: Tuple, rowId: Id): Tables {
    t.(versions := t.versions[rowId := VersionRow(id, x, None, None)])
  }

  lemma FreshTail(t: Tables, id: Id, x: Tuple, ids: seq<Id>)
    requires FreshIds(t, ids) && ids != []
    ensures FreshIds(t, ids[1..]) && FreshIds(WithRow(t, id, x, ids[0]), ids[1..])
  {
    forall k | 0 <= k < |ids[1..]| ensures ids[1..][k] == ids[k + 1] && ids[1..][k] != ids[0] {}
  }

  lemma {:induction false} InsertAllRows(t: Tables, id: Id, xs: seq<Tuple>, ids: seq<Id>)
    requires Constraints(t) && id in t.providers && |ids| == |xs| && FreshIds(t, ids)
    requires forall k :: 0 <= k < |xs| ==> TupleFits(xs[k])
    ensures var u := InsertAll(t, id, xs, ids).tables;
      && Constraints(u) && u.providers == t.providers
      && (forall i :: i in t.versions ==> i in u.versions && u.versions[i] == t.versions[i])
      && (forall i :: i in u.versions && i !in t.versions ==>
            i in ids && u.versions[i].providerId == id && u.versions[i].artifactId.None?)
    decreases |xs|
  {
    if xs != [] {
      FreshTail(t, id, xs[0], ids);
      if HasRow(t, id, xs[0]) {
        InsertAllRows(t, id, xs[1..], ids[1..]);
      } else {
        RowFits(t, id, xs[0], ids[0]);
        InsertAllRows(WithRow(t, id, xs[0], ids[0]), id, xs[1..], ids[1..]);
      }
    }
  }

  lemma RowFits(t: Tables, id: Id, x: Tuple, rowId: Id)
    requires Constraints(t) && id in t.providers && rowId !in t.versions && TupleFits(x) && !HasRow(t, id, x)
    ensures Constraints(WithRow(t, id, x, rowId))
  {
  }

  lemma {:induction false} InsertAllTuples(t: Tables, id: Id, xs: seq<Tuple>, ids: seq<Id>)
    requires |ids| == |xs| && FreshIds(t, ids)
    ensures TuplesUnder(InsertAll(t, id, xs, ids).tables, id) == TuplesUnder(t, id) + SetOf(xs)
    decreases |xs|
  {
    if xs != [] {
      SetOfCons(xs);
      FreshTail(t, id, xs[0], ids);
      if HasRow(t, id, xs[0]) {
        InsertAllTuples(t, id, xs[1..], ids[1..]);
        assert xs[0] in TuplesUnder(t, id);
      } else {
        InsertOne(t, id, xs[0], ids[0]);
        InsertAllTuples(WithRow(t, id, xs[0], ids[0]), id, xs[1..], ids[1..]);
      }
    }
  }

  lemma {:induction false} InsertAllCount(t: Tables, id: Id, xs: seq<Tuple>, ids: seq<Id>)
    requires |ids| == |xs| && FreshIds(t, ids)
    ensures |InsertAll(t, id, xs, ids).returned| == |SetOf(xs) - TuplesUnder(t, id)|
    decreases |xs|
  {
    if xs == [] {
      assert SetOf(xs) - TuplesUnder(t, id) == {};
    } else {
      SetOfCons(xs);
      FreshTail(t, id, xs[0], ids);
      if HasRow(t, id, xs[0]) {
        InsertAllCount(t, id, xs[1..], ids[1..]);
        assert xs[0] in TuplesUnder(t, id);
        assert SetOf(xs) - TuplesUnder(t, id) == SetOf(xs[1..]) - TuplesUnder(t, id);
      } else {
        InsertOne(t, id, xs[0], ids[0]);
        InsertAllCount(WithRow(t, id, xs[0], ids[0]), id, xs[1..], ids[1..]);
        OneMoreMissing(SetOf(xs[1..]), TuplesUnder(t, id), xs[0]);
      }
    }
  }

  lemma OneMoreMissing(wanted: set<Tuple>, known: set<Tuple>, x: Tuple)
    requires x !in known
    ensures |({x} + wanted) - known| == |wanted - (known + {x})| + 1
  {
    assert ({x} + wanted) - known == (wanted - (known + {x})) + {x};
  }

  lemma SetOfCons(xs: seq<Tuple>)
    requires xs != []
    ensures SetOf(xs) == {xs[0]} + SetOf(xs[1..])
  {
    forall x | x in SetOf(xs) ensures x in {xs[0]} + SetOf(xs[1..]) {
      var k :| 0 <= k < |xs| && xs[k] == x;
      assert k > 0 ==> xs[1..][k - 1] == x;
    }
    forall x | x in SetOf(xs[1..]) ensures x in SetOf(xs) {
      var k :| 0 <= k < |xs[1..]| && xs[1..][k] == x;
      assert xs[k + 1] == x;
    }
  }

  lemma InsertOne(t: Tables, id: Id, x: Tuple, rowId: Id)
    requires rowId !in t.versions && !HasRow(t, id, x)
    ensures TuplesUnder(WithRow(t, id, x, rowId), id) == TuplesUnder(t, id) + {x}
    ensures x !in TuplesUnder(t, id)
  {
    var t' := WithRow(t, id, x, rowId);
    forall y | y in TuplesUnder(t, id) ensures y in TuplesUnder(t', id) {
      var i :| i in t.versions && t.versions[i].providerId == id && t.versions[i].tuple == y;
      assert t'.versions[i].tuple == y;
    }
    assert t'.versions[rowId].tuple == x;
  }

  /** The provider has one row, refreshed now; every other provider's row is what it was; and if the provider
      had a row before, no row was added. */
  ghost predicate Touched(t: Tables, u: Tables, p: Provider, now: Time) {
    && (exists i :: i in u.providers && u.providers[i].provider == p)
    && (forall i :: i in u.providers && u.providers[i].provider == p ==> u.providers[i].lastRefreshed == now)
    && (forall i :: i in u.providers && u.providers[i].provider != p ==>
          i in t.providers && u.providers[i] == t.providers[i])
    && (forall i :: i in t.providers ==> i in u.providers && u.providers[i].provider == t.providers[i].provider)
    && ((exists i :: i in t.providers && t.providers[i].provider == p) ==> u.providers.Keys == t.providers.Keys)
  }

  lemma UpsertTouches(t: Tables, p: Provider, freshId: Id, now: Time)
    requires UniqueProvider(t) && freshId !in t.providers
    ensures Touched(t, Upsert(t, p, freshId, now), p, now)
  {
    var u := Upsert(t, p, freshId, now);
    var id := match FindProvider(t, p) case Some(i) => i case None => freshId;
    assert id in u.providers && u.providers[id].provider == p;
  }

  lemma UpsertSpec(t: Tables, p: Provider, freshId: Id, now: Time)
    requires Constraints(t) && ProviderFits(p) && freshId !in t.providers
    ensures var t' := Upsert(t, p, freshId, now);
      && Constraints(t') && t'.versions == t.versions && Extends(t, t')
      && FindProvider(t', p).Some?
      && FindProvider(t', p).value in t'.providers && t'.providers[FindProvider(t', p).value].provider == p
      && (forall i, q :: Joins(t', i, q) <==> Joins(t, i, q))
      && (forall q :: Tuples(t', q) == Tuples(t, q))
      && Touched(t, t', p, now)
  {
    UpsertTouches(t, p, freshId, now);
    var t' := Upsert(t, p, freshId, now);
    var id := match FindProvider(t, p) case Some(i) => i case None => freshId;
    assert id in t'.providers && t'.providers[id].provider == p;
    forall i, q ensures Joins(t', i, q) <==> Joins(t, i, q) {}
  }

  /** The two statements of a store that passes the length checks. */
  lemma StoreUnfold(t: Tables, p: Provider, xs: seq<Tuple>, freshId: Id, ids: seq<Id>, now: Time)
    returns (t': Tables, id: Id)
    requires Constraints(t) && freshId !in t.providers && |ids| == |xs| && FreshIds(t, ids)
    requires Store(t, p, xs, freshId, ids, now).Ok?
    ensures t' == Upsert(t, p, freshId, now) && Constraints(t') && t'.versions == t.versions && Extends(t, t')
    ensures id in t'.providers && t'.providers[id].provider == p
    ensures Store(t, p, xs, freshId, ids, now) == Ok(InsertAll(t', id, xs, ids))
    ensures Tuples(t', p) == Tuples(t, p)
    ensures forall i, q :: Joins(t', i, q) <==> Joins(t, i, q)
    ensures forall k :: 0 <= k < |xs| ==> TupleFits(xs[k])
  {
    t' := Upsert(t, p, freshId, now);
    UpsertSpec(t, p, freshId, now);
    id := FindProvider(t', p).value;
  }

  /** What committing a response does to the rows: the old ones are untouched, the new ones are the
      provider's and have no artifact. */
  lemma StoreRows(t: Tables, p: Provider, xs: seq<Tuple>, freshId: Id, ids: seq<Id>, now: Time)
    requires Constraints(t) && freshId !in t.providers && |ids| == |xs| && FreshIds(t, ids)
    requires Store(t, p, xs, freshId, ids, now).Ok?
    ensures var r := Store(t, p, xs, freshId, ids, now).value;
      && Constraints(r.tables) && Extends(t, r.tables)
      && (forall i :: i in t.versions ==> i in r.tables.versions && r.tables.versions[i] == t.versions[i])
      && (forall i :: i in r.tables.versions && i !in t.versions ==>
            i in ids && Joins(r.tables, i, p) && r.tables.versions[i].artifactId.None?)
      && Touched(t, r.tables, p, now)
  {
    var t', id := StoreUnfold(t, p, xs, freshId, ids, now);
    InsertAllRows(t', id, xs, ids);
    UpsertTouches(t, p, freshId, now);
  }

  /** Committing a response makes the provider's tuples the union of the old ones and the response's,
      changes no other provider's, and reports the number of tuples that are really new. */
  lemma StoreIsUnion(t: Tables, p: Provider, xs: seq<Tuple>, freshId: Id, ids: seq<Id>, now: Time)
    requires Constraints(t) && freshId !in t.providers && |ids| == |xs| && FreshIds(t, ids)
    requires Store(t, p, xs, freshId, ids, now).Ok?
    ensures var r := Store(t, p, xs, freshId, ids, now).value;
      && Tuples(r.tables, p) == Tuples(t, p) + SetOf(xs)
      && |r.returned| == |SetOf(xs) - Tuples(t, p)|
      && (forall q :: q != p ==> RowsOf(r.tables, q) == RowsOf(t, q) && Tuples(r.tables, q) == Tuples(t, q))
  {
    var r := Store(t, p, xs, freshId, ids, now).value.tables;
    var t', id := StoreUnfold(t, p, xs, freshId, ids, now);
    assert Tuples(r, p) == Tuples(t, p) + SetOf(xs)
           && |InsertAll(t', id, xs, ids).returned| == |SetOf(xs) - Tuples(t, p)| by {
      InsertAllRows(t', id, xs, ids);
      InsertAllTuples(t', id, xs, ids);
      InsertAllCount(t', id, xs, ids);
      TuplesUnderIs(t', p, id);
      TuplesUnderIs(r, p, id);
    }
    StoreRows(t, p, xs, freshId, ids, now);
    forall q | q != p ensures RowsOf(r, q) == RowsOf(t, q) && Tuples(r, q) == Tuples(t, q) {
      SameRowsSameTuples(t, r, p, q);
    }
  }

  lemma SameRowsSameTuples(t: Tables, r: Tables, p: Provider, q: Provider)
    requires q != p && References(t) && Extends(t, r)
    requires forall i :: i in t.versions ==> i in r.versions && r.versions[i] == t.versions[i]
    requires forall i :: i in r.versions && i !in t.versions ==> Joins(r, i, p)
    ensures RowsOf(r, q) == RowsOf(t, q) && Tuples(r, q) == Tuples(t, q)
  {
    forall i ensures Joins(r, i, q) <==> Joins(t, i, q) {}
  }

  /** A store is refused exactly when some text is too long for its column. */
  lemma StoreRefusedIff(t: Tables, p: Provider, xs: seq<Tuple>, freshId: Id, ids: seq<Id>, now: Time)
    requires UniqueProvider(t) && |ids| == |xs|
    ensures Store(t, p, xs, freshId, ids, now).Err? <==> !ProviderFits(p) || exists x :: x in xs && !TupleFits(x)
  {
    if k :| 0 <= k < |xs| && !TupleFits(xs[k]) {
      assert xs[k] in xs;
    }
  }

  /** Storing a response again, at any later time, inserts nothing. */
  lemma StoreAgain(t: Tables, u: Tables, p: Provider, xs: seq<Tuple>, freshId: Id, ids: seq<Id>, now: Time)
    requires Constraints(t) && SetOf(xs) <= Tuples(t, p) && Extends(t, u) && Constraints(u)
    requires freshId !in u.providers && |ids| == |xs| && FreshIds(u, ids)
    requires Store(u, p, xs, freshId, ids, now).Ok?
    ensures Store(u, p, xs, freshId, ids, now).value.returned == []
    ensures Store(u, p, xs, freshId, ids, now).value.tables.versions == u.versions
  {
    ExtendsKeeps(t, u, p);
    assert SetOf(xs) - Tuples(u, p) == {} && Tuples(u, p) + SetOf(xs) == Tuples(u, p);
    var r := Store(u, p, xs, freshId, ids, now).value;
    assert Tuples(r.tables, p) == Tuples(u, p) && |r.returned| == 0 by {
      StoreIsUnion(u, p, xs, freshId, ids, now);
    }
    StoreRows(u, p, xs, freshId, ids, now);
    NoNewRows(u, r.tables, p);
  }

  lemma NoNewRows(u: Tables, r: Tables, p: Provider)
    requires Extends(u, r) && UniqueTuple(r) && UniqueProvider(r) && Tuples(r, p) == Tuples(u, p)
    requires forall i :: i in u.versions ==> i in r.versions && r.versions[i] == u.versions[i]
    requires forall i :: i in r.versions && i !in u.versions ==> Joins(r, i, p)
    ensures r.versions == u.versions
  {
    forall i | i in r.versions ensures i in u.versions {
      assert r.versions[i].tuple in Tuples(r, p) || i in u.versions;
    }
  }

  // ---------------------------------------------------------------- recording an artifact

  /** `update terraform_provider_version set artifact_id, artifact_timestamp where id`. */
  function Record(t: Tables, rowId: Id, artifactId: Id, now: Time): Result<Tables, DbError> {
    if rowId !in t.versions then
      Ok(t)
    else if exists j :: j in t.versions && j != rowId && t.versions[j].artifactId == Some(artifactId) then
      Err(UniqueViolation)
    else
      var row := t.versions[rowId].(artifactId := Some(artifactId), artifactTimestamp := Some(now));
      Ok(t.(versions := t.versions[rowId := row]))
  }

  /** Recording changes the artifact columns of one row and nothing else. */
  lemma RecordRows(t: Tables, rowId: Id, artifactId: Id, now: Time)
    requires Constraints(t) && Record(t, rowId, artifactId, now).Ok?
    ensures var u := Record(t, rowId, artifactId, now).value;
      && Constraints(u) && Extends(t, u) && u.providers == t.providers
      && (forall i :: i in u.versions <==> i in t.versions)
      && (forall i :: i in t.versions && i != rowId ==> u.versions[i] == t.versions[i])
      && (rowId in t.versions ==>
            u.versions[rowId] == t.versions[rowId].(artifactId := Some(artifactId), artifactTimestamp := Some(now)))
  {
  }

  lemma RecordKeepsViews(t: Tables, rowId: Id, artifactId: Id, now: Time)
    requires Constraints(t) && Record(t, rowId, artifactId, now).Ok?
    ensures var u := Record(t, rowId, artifactId, now).value;
      && (forall i, q :: Joins(u, i, q) <==> Joins(t, i, q))
      && (forall q :: Tuples(u, q) == Tuples(t, q) && RowsOf(u, q) == RowsOf(t, q))
  {
    var u := Record(t, rowId, artifactId, now).value;
    forall i, q ensures Joins(u, i, q) <==> Joins(t, i, q) {}
    forall i | i in t.versions ensures u.versions[i].tuple == t.versions[i].tuple {}
    forall q ensures Tuples(u, q) == Tuples(t, q) {
      forall x | x in Tuples(t, q) ensures x in Tuples(u, q) {
        var i :| i in t.versions && Joins(t, i, q) && t.versions[i].tuple == x;
        assert Joins(u, i, q);
      }
      forall x | x in Tuples(u, q) ensures x in Tuples(t, q) {
        var i :| i in u.versions && Joins(u, i, q) && u.versions[i].tuple == x;
        assert Joins(t, i, q);
      }
    }
  }
}
