/** The version index: flattening an upstream response into rows, storing it, listing it back, and the
    index documents served to clients. */
module Index {
  import opened Basics
  import opened Decimal
  import opened Catalogue

  datatype ProviderPlatform = ProviderPlatform(os: string, arch: string)

  datatype ProviderVersionItem = ProviderVersionItem(version: string, protocols: seq<string>,
                                                     platforms: seq<ProviderPlatform>)

  /** The upstream answer to "List Available Versions" of the Provider Registry Protocol. */
  datatype ProviderVersions = ProviderVersions(versions: seq<ProviderVersionItem>)

  /** The answer to "List Available Versions" of the Provider Network Mirror Protocol. */
  datatype MirrorIndex = MirrorIndex(versions: map<string, map<string, string>>)

  // ---------------------------------------------------------------- what a response holds

  function TupleOf(version: string, platform: ProviderPlatform): Tuple {
    Tuple(version, platform.os, platform.arch)
  }

  function FlattenItem(item: ProviderVersionItem): seq<Tuple> {
    seq(|item.platforms|, j requires 0 <= j < |item.platforms| => TupleOf(item.version, item.platforms[j]))
  }

  function FlattenItems(items: seq<ProviderVersionItem>): seq<Tuple> {
    if items == [] then []
    else FlattenItems(Init(items)) + FlattenItem(Last(items))
  }

  /** One tuple for each platform of each version, in order. */
  function Flatten(response: ProviderVersions): seq<Tuple> {
    FlattenItems(response.versions)
  }

  predicate OffersAt(items: seq<ProviderVersionItem>, i: nat, j: nat, x: Tuple)
    requires i < |items| && j < |items[i].platforms|
  {
    && x.version == items[i].version && x.os == items[i].platforms[j].os && x.arch == items[i].platforms[j].arch
  }

  ghost predicate Offers(items: seq<ProviderVersionItem>, x: Tuple) {
    exists i, j :: 0 <= i < |items| && 0 <= j < |items[i].platforms|
                   && OffersAt(items, i, j, x)
  }

  ghost predicate ItemOffers(items: seq<ProviderVersionItem>, i: nat, x: Tuple)
    requires i < |items|
  {
    exists j :: 0 <= j < |items[i].platforms| && OffersAt(items, i, j, x)
  }

  lemma ItemIsExact(items: seq<ProviderVersionItem>, i: nat, x: Tuple)
    requires i < |items|
    ensures x in SetOf(FlattenItem(items[i])) <==> ItemOffers(items, i, x)
  {
    var xs := FlattenItem(items[i]);
    if x in SetOf(xs) {
      var j :| 0 <= j < |xs| && xs[j] == x;
      assert OffersAt(items, i, j, x);
    }
    if j :| 0 <= j < |items[i].platforms| && OffersAt(items, i, j, x) {
      assert xs[j] == x;
    }
  }

  /** Flattening keeps every (version, platform) pair, as it is, and adds none. */
  lemma {:induction false} FlattenIsExact(items: seq<ProviderVersionItem>, x: Tuple)
    ensures x in SetOf(FlattenItems(items)) <==> Offers(items, x)
  {
    if items != [] {
      var init, n := Init(items), |items| - 1;
      FlattenIsExact(init, x);
      SetOfAppend(FlattenItems(init), FlattenItem(items[n]));
      ItemIsExact(items, n, x);
      OffersSnoc(items, x);
    }
  }

  lemma OffersSnoc(items: seq<ProviderVersionItem>, x: Tuple)
    requires items != []
    ensures Offers(items, x) <==> Offers(Init(items), x) || ItemOffers(items, |items| - 1, x)
  {
    var init, n := Init(items), |items| - 1;
    if Offers(init, x) {
      var i, j :| 0 <= i < |init| && 0 <= j < |init[i].platforms| && OffersAt(init, i, j, x);
      assert items[i] == init[i] && OffersAt(items, i, j, x);
    }
    if Offers(items, x) {
      var i, j :| 0 <= i < |items| && 0 <= j < |items[i].platforms| && OffersAt(items, i, j, x);
      if i < n {
        assert items[i] == init[i] && OffersAt(init, i, j, x);
      }
    }
  }

  lemma SetOfAppend(xs: seq<Tuple>, ys: seq<Tuple>)
    ensures SetOf(xs + ys) == SetOf(xs) + SetOf(ys)
  {
    forall x | x in SetOf(ys) ensures x in SetOf(xs + ys) {
      var k :| 0 <= k < |ys| && ys[k] == x;
      assert (xs + ys)[|xs| + k] == x;
    }
    forall x | x in SetOf(xs) ensures x in SetOf(xs + ys) {
      var k :| 0 <= k < |xs| && xs[k] == x;
      assert (xs + ys)[k] == x;
    }
    forall x | x in SetOf(xs + ys) ensures x in SetOf(xs) + SetOf(ys) {
      var k :| 0 <= k < |xs + ys| && (xs + ys)[k] == x;
      assert if k < |xs| then xs[k] == x else ys[k - |xs|] == x;
    }
  }

  function ItemNames(items: seq<ProviderVersionItem>): set<string> {
    set i | 0 <= i < |items| :: items[i].version
  }

  function Names(response: ProviderVersions): set<string> {
    ItemNames(response.versions)
  }

  /** The version names that come with at least one platform, in some item. */
  function NamesWithPlatform(response: ProviderVersions): set<string> {
    set i | 0 <= i < |response.versions| && response.versions[i].platforms != [] :: response.versions[i].version
  }

  lemma NamesOfFlatten(response: ProviderVersions)
    ensures NamesWithPlatform(response) == set x | x in SetOf(Flatten(response)) :: x.version
    ensures Flatten(response) == [] <==> NamesWithPlatform(response) == {}
  {
    forall n | n in NamesWithPlatform(response)
      ensures exists x :: x in SetOf(Flatten(response)) && x.version == n
    {
      var i :| 0 <= i < |response.versions| && response.versions[i].platforms != []
               && response.versions[i].version == n;
      var x := TupleOf(response.versions[i].version, response.versions[i].platforms[0]);
      assert OffersAt(response.versions, i, 0, x);
      FlattenIsExact(response.versions, x);
    }
    forall x | x in SetOf(Flatten(response)) ensures x.version in NamesWithPlatform(response) {
      FlattenIsExact(response.versions, x);
    }
    if Flatten(response) != [] {
      assert Flatten(response)[0] in SetOf(Flatten(response));
    }
  }

  /** Some text that would be stored is longer than its column: the provider's, or that of a version that
      comes with a platform.  The name of a version without platforms does not matter. */
  ghost predicate TooLong(p: Provider, response: ProviderVersions) {
    || |p.hostname| > 253 || |p.namespace| > 255 || |p.providerType| > 255
    || exists i, j :: 0 <= i < |response.versions| && 0 <= j < |response.versions[i].platforms|
                      && OverlongAt(response.versions, i, j)
  }

  predicate OverlongAt(items: seq<ProviderVersionItem>, i: nat, j: nat)
    requires i < |items| && j < |items[i].platforms|
  {
    |items[i].version| > 255 || |items[i].platforms[j].os| > 255 || |items[i].platforms[j].arch| > 255
  }

  lemma TooLongIs(p: Provider, response: ProviderVersions)
    ensures TooLong(p, response) <==> !ProviderFits(p) || exists x :: x in Flatten(response) && !TupleFits(x)
  {
    var xs, items := Flatten(response), response.versions;
    if x :| x in xs && !TupleFits(x) {
      var k :| 0 <= k < |xs| && xs[k] == x;
      assert x in SetOf(xs);
      FlattenIsExact(items, x);
      var i, j :| 0 <= i < |items| && 0 <= j < |items[i].platforms| && OffersAt(items, i, j, x);
      assert OverlongAt(items, i, j);
    }
    if i, j :| 0 <= i < |items| && 0 <= j < |items[i].platforms| && OverlongAt(items, i, j) {
      var x := TupleOf(items[i].version, items[i].platforms[j]);
      assert OffersAt(items, i, j, x) && !TupleFits(x);
      FlattenIsExact(items, x);
      var k :| 0 <= k < |xs| && xs[k] == x;
      assert xs[k] in xs;
    }
  }

  /** One overlong text refuses the whole response, and nothing else does. */
  lemma ResponseRefusedIff(t: Tables, p: Provider, response: ProviderVersions, freshId: Id, ids: seq<Id>, now: Time)
    requires UniqueProvider(t) && |ids| == |Flatten(response)|
    ensures Store(t, p, Flatten(response), freshId, ids, now).Err? <==> TooLong(p, response)
  {
    StoreRefusedIff(t, p, Flatten(response), freshId, ids, now);
    TooLongIs(p, response);
  }

  // ---------------------------------------------------------------- index documents

  function IndexOf(names: set<string>): MirrorIndex {
    MirrorIndex(map n | n in names :: map[])
  }

  /** The index shows exactly these version names, and nothing about any of them. */
  predicate Shows(index: MirrorIndex, names: set<string>) {
    index.versions.Keys == names && forall n :: n in names ==> index.versions[n] == map[]
  }

  lemma ShowsIsIndexOf(index: MirrorIndex, names: set<string>)
    ensures Shows(index, names) <==> index == IndexOf(names)
  {
    if Shows(index, names) {
      assert index.versions == IndexOf(names).versions;
    }
  }

  /** What the catalogue can list of a provider, if anything. */
  function ListingOf(t: Tables, p: Provider): Option<MirrorIndex> {
    if RowsOf(t, p) == {} then None else Some(IndexOf(VersionNames(t, p)))
  }

  lemma IndexOfInjective(a: set<string>, b: set<string>)
    requires IndexOf(a) == IndexOf(b)
    ensures a == b
  {
    assert a == IndexOf(a).versions.Keys;
    assert b == IndexOf(b).versions.Keys;
  }

  method FromProviderVersions(response: ProviderVersions) returns (index: MirrorIndex)
    ensures index == IndexOf(Names(response)) && Shows(index, Names(response))
  {
    var versions: map<string, map<string, string>> := map[];
    var items := response.versions;
    for i := 0 to |items|
      invariant versions == IndexOf(ItemNames(items[..i])).versions
    {
      ItemNamesSnoc(items, i);
      versions := versions[items[i].version := map[]];
    }
    assert items[..|items|] == items;
    index := MirrorIndex(versions);
  }

  lemma ItemNamesSnoc(items: seq<ProviderVersionItem>, i: nat)
    requires i < |items|
    ensures ItemNames(items[..i + 1]) == ItemNames(items[..i]) + {items[i].version}
  {
    assert items[..i + 1][i] == items[i];
    forall k | 0 <= k < i ensures items[..i + 1][k] == items[..i][k] {}
  }

  function SetOfNames(names: seq<string>): set<string> {
    set k | 0 <= k < |names| :: names[k]
  }

  lemma NamesSnoc(names: seq<string>, name: string)
    ensures SetOfNames(names + [name]) == SetOfNames(names) + {name}
  {
    assert (names + [name])[|names|] == name;
    forall k | 0 <= k < |names| ensures (names + [name])[k] == names[k] {}
  }

  method FromVersionList(names: seq<string>) returns (index: MirrorIndex)
    ensures index == IndexOf(SetOfNames(names)) && Shows(index, SetOfNames(names))
  {
    var versions: map<string, map<string, string>> := map[];
    for i := 0 to |names|
      invariant versions == IndexOf(SetOfNames(names[..i])).versions
    {
      NamesSnoc(names[..i], names[i]);
      assert names[..i + 1] == names[..i] + [names[i]];
      versions := versions[names[i] := map[]];
    }
    assert names[..|names|] == names;
    index := MirrorIndex(versions);
  }

  /** All the values, if none is missing. */
  function Collect(xs: seq<Option<string>>): Option<seq<string>> {
    if xs == [] then Some([])
    else match (xs[0], Collect(xs[1..]))
      case (Some(x), Some(rest)) => Some([x] + rest)
      case _ => None
  }

  lemma CollectSome(names: seq<string>)
    ensures Collect(seq(|names|, k requires 0 <= k < |names| => Some(names[k]))) == Some(names)
  {
    var xs := seq(|names|, k requires 0 <= k < |names| => Some(names[k]));
    if names != [] {
      assert xs[1..] == seq(|names[1..]|, k requires 0 <= k < |names[1..]| => Some(names[1..][k]));
      CollectSome(names[1..]);
      assert [names[0]] + names[1..] == names;
    }
  }

  // ---------------------------------------------------------------- the database

  function Unnest(versions: seq<string>, oses: seq<string>, arches: seq<string>): seq<Tuple>
    requires |versions| == |oses| == |arches|
  {
    seq(|versions|, k requires 0 <= k < |versions| => Tuple(versions[k], oses[k], arches[k]))
  }

  /** Consecutive draws from a sequence. */
  function Draw(from: int, count: nat): seq<Id>
    requires I64_MIN <= from && from + count - 1 <= I64_MAX
  {
    seq(count, k requires 0 <= k < count => from + k)
  }

  lemma DrawsAreFresh(t: Tables, from: int, count: nat)
    requires I64_MIN <= from && from + count - 1 <= I64_MAX
    requires forall i :: i in t.versions ==> i < from
    ensures FreshIds(t, Draw(from, count))
  {
  }

  function NamesOfRows(t: Tables, ids: set<Id>): set<string>
    requires forall i :: i in ids ==> i in t.versions
  {
    set i | i in ids :: t.versions[i].tuple.version
  }

  /** What goes wrong on the way of one store, statement by statement. */
  datatype Faults = Faults(begin: bool, upsert: bool, insert: bool, commit: bool, acknowledge: bool)

  class Database {
    var tables: Tables
    var nextProviderId: int
    var nextVersionId: int

    ghost predicate Valid()
      reads this
    {
      && Constraints(tables) && 1 <= nextProviderId && 1 <= nextVersionId
      && (forall i :: i in tables.providers ==> i < nextProviderId)
      && (forall i :: i in tables.versions ==> i < nextVersionId)
    }

    constructor ()
      ensures Valid() && tables == EMPTY
    {
      tables, nextProviderId, nextVersionId := EMPTY, 1, 1;
    }

    /** The sequences still have an id for the provider and one for each candidate. */
    predicate HasIds(count: nat)
      reads this
    {
      1 <= nextProviderId <= I64_MAX && 1 <= nextVersionId && nextVersionId + count - 1 <= I64_MAX
    }

    ghost function Outcome(p: Provider, response: ProviderVersions, now: Time): Result<Inserted, DbError>
      reads this
      requires Valid() && HasIds(|Flatten(response)|)
    {
      Store(tables, p, Flatten(response), nextProviderId, Draw(nextVersionId, |Flatten(response)|), now)
    }

    /** Nothing goes wrong before the commit is carried out. */
    predicate Carried(faults: Faults, count: nat)
      reads this
    {
      !faults.begin && HasIds(count) && !faults.upsert && !faults.insert && !faults.commit
    }

    /** Stores a response.  It succeeds exactly if nothing goes wrong and every text fits; otherwise the
        tables are as they were, unless only the acknowledgement of the commit was lost. */
    method StoreProviderVersions(p: Provider, response: ProviderVersions, now: Time, faults: Faults)
      returns (r: Result<nat, DbError>)
      requires Valid()
      modifies this
      ensures Valid()
      ensures r.Ok? <==> old(Carried(faults, |Flatten(response)|)) && !faults.acknowledge && !TooLong(p, response)
      ensures old(Carried(faults, |Flatten(response)|)) && !TooLong(p, response) ==>
                old(Outcome(p, response, now)).Ok? && tables == old(Outcome(p, response, now)).value.tables
                && (r.Ok? ==> r.value == |old(Outcome(p, response, now)).value.returned|)
      ensures !(old(Carried(faults, |Flatten(response)|)) && !TooLong(p, response)) ==> tables == old(tables)
    {
      var versions, oses, arches := FlattenResponse(response);
      TooLongIs(p, response);
      r := Transact(p, Unnest(versions, oses, arches), now, faults);
    }

    predicate Fitting(p: Provider, xs: seq<Tuple>) {
      ProviderFits(p) && forall x :: x in xs ==> TupleFits(x)
    }

    /** The transaction: upsert the provider, insert the candidates, commit. */
    method Transact(p: Provider, xs: seq<Tuple>, now: Time, faults: Faults) returns (r: Result<nat, DbError>)
      requires Valid()
      modifies this
      ensures Valid()
      ensures r.Ok? <==> old(Carried(faults, |xs|)) && !faults.acknowledge && Fitting(p, xs)
      ensures old(Carried(faults, |xs|)) && Fitting(p, xs) ==>
                var stored := old(Store(tables, p, xs, nextProviderId, Draw(nextVersionId, |xs|), now));
                stored.Ok? && tables == stored.value.tables && (r.Ok? ==> r.value == |stored.value.returned|)
      ensures !(old(Carried(faults, |xs|)) && Fitting(p, xs)) ==> tables == old(tables)
    {
      if faults.begin || !HasIds(|xs|) {
        return Err(Unavailable);
      }
      var transaction := tables;
      var providerId, firstId := nextProviderId, nextVersionId;

      // The provider's row, new or touched; its sequence is drawn from either way.
      nextProviderId := nextProviderId + 1;
      if !ProviderFits(p) {
        return Err(CheckViolation);
      }
      if faults.upsert {
        return Err(Unavailable);
      }
      transaction := Upsert(transaction, p, providerId, now);

      // One candidate row for each pair; those already there are skipped.
      nextVersionId := nextVersionId + |xs|;
      if exists k :: 0 <= k < |xs| && !TupleFits(xs[k]) {
        return Err(CheckViolation);
      }
      if faults.insert {
        return Err(Unavailable);
      }
      StoreIsTwoStatements(tables, p, xs, providerId, Draw(firstId, |xs|), now);
      var id := FindProvider(transaction, p).value;
      var inserted := InsertAll(transaction, id, xs, Draw(firstId, |xs|));
      transaction := inserted.tables;
      StoreStaysValid(tables, p, xs, providerId, firstId, now);
      if faults.commit {
        return Err(Unavailable);
      }
      tables := transaction;
      if faults.acknowledge {
        return Err(Unavailable);
      }
      r := Ok(|inserted.returned|);
    }

    /** The rows of a query come in no particular order, here that of arbitrary choice. */
    method SelectVersions(p: Provider) returns (rows: seq<Option<string>>, ghost names: seq<string>)
      ensures rows == seq(|names|, k requires 0 <= k < |names| => Some(names[k]))
      ensures SetOfNames(names) == VersionNames(tables, p)
      ensures |rows| == |RowsOf(tables, p)|
    {
      rows, names := [], [];
      var rest := RowsOf(tables, p);
      while rest != {}
        invariant rest <= RowsOf(tables, p)
        invariant rows == seq(|names|, k requires 0 <= k < |names| => Some(names[k]))
        invariant SetOfNames(names) == NamesOfRows(tables, RowsOf(tables, p) - rest)
        invariant |rows| + |rest| == |RowsOf(tables, p)|
      {
        var i :| i in rest;
        var before := RowsOf(tables, p) - rest;
        ghost var namesBefore := names;
        rest := rest - {i};
        rows, names := rows + [Some(tables.versions[i].tuple.version)], names + [tables.versions[i].tuple.version];
        assert RowsOf(tables, p) - rest == before + {i};
        assert NamesOfRows(tables, before + {i}) == NamesOfRows(tables, before) + {tables.versions[i].tuple.version};
        NamesSnoc(namesBefore, tables.versions[i].tuple.version);
      }
      assert RowsOf(tables, p) - rest == RowsOf(tables, p);
    }

    /** What the catalogue knows of a provider: nothing at all if no row joins to it, and otherwise the names of
        its versions, each without further detail.  It fails exactly if the query does. */
    method ListProviderVersions(p: Provider, failed: bool) returns (r: Result<Option<MirrorIndex>, DbError>)
      ensures r.Ok? <==> !failed
      ensures r.Ok? ==> r.value == ListingOf(tables, p)
      ensures r.Ok? ==> (r.value.None? <==> forall i :: !Joins(tables, i, p))
      ensures r.Ok? && r.value.Some? ==>
                && (forall n :: n in r.value.value.versions <==>
                      exists i :: Joins(tables, i, p) && tables.versions[i].tuple.version == n)
                && (forall n :: n in r.value.value.versions ==> r.value.value.versions[n] == map[])
    {
      if failed {
        return Err(Unavailable);
      }
      var rows, names := SelectVersions(p);
      if rows == [] {
        assert forall i :: Joins(tables, i, p) ==> i in RowsOf(tables, p);
        return Ok(None);
      }
      CollectSome(names);
      var collected := match Collect(rows) case Some(all) => all case None => [];
      var index := FromVersionList(collected);
      r := Ok(Some(index));
      assert RowsOf(tables, p) != {};
    }
  }

  lemma StoreIsTwoStatements(t: Tables, p: Provider, xs: seq<Tuple>, providerId: Id, ids: seq<Id>, now: Time)
    requires Constraints(t) && providerId !in t.providers && |ids| == |xs|
    requires ProviderFits(p) && forall x :: x in xs ==> TupleFits(x)
    ensures var u := Upsert(t, p, providerId, now);
      && UniqueProvider(u) && FindProvider(u, p).Some?
      && Store(t, p, xs, providerId, ids, now) == Ok(InsertAll(u, FindProvider(u, p).value, xs, ids))
  {
    UpsertSpec(t, p, providerId, now);
  }

  /** After a store the tables satisfy the schema and hold no id that was not drawn. */
  lemma StoreStaysValid(t: Tables, p: Provider, xs: seq<Tuple>, providerId: Id, firstId: int, now: Time)
    requires Constraints(t) && 1 <= firstId && firstId + |xs| - 1 <= I64_MAX
    requires (forall i :: i in t.providers ==> i < providerId) && (forall i :: i in t.versions ==> i < firstId)
    requires Store(t, p, xs, providerId, Draw(firstId, |xs|), now).Ok?
    ensures var u := Store(t, p, xs, providerId, Draw(firstId, |xs|), now).value.tables;
      && Constraints(u)
      && (forall i :: i in u.providers ==> i < providerId + 1) && (forall i :: i in u.versions ==> i < firstId + |xs|)
  {
    DrawsAreFresh(t, firstId, |xs|);
    StoreRows(t, p, xs, providerId, Draw(firstId, |xs|), now);
    StoreProviders(t, p, xs, providerId, Draw(firstId, |xs|), now);
  }

  lemma StoreProviders(t: Tables, p: Provider, xs: seq<Tuple>, freshId: Id, ids: seq<Id>, now: Time)
    requires Constraints(t) && freshId !in t.providers && |ids| == |xs| && FreshIds(t, ids)
    requires Store(t, p, xs, freshId, ids, now).Ok?
    ensures forall i :: i in Store(t, p, xs, freshId, ids, now).value.tables.providers ==>
              i in t.providers || i == freshId
  {
    var t', id := StoreUnfold(t, p, xs, freshId, ids, now);
    InsertAllRows(t', id, xs, ids);
  }

  /** The nested loop over items and their platforms, filling three parallel arrays. */
  method FlattenResponse(response: ProviderVersions)
    returns (versions: seq<string>, oses: seq<string>, arches: seq<string>)
    ensures |versions| == |oses| == |arches|
    ensures Unnest(versions, oses, arches) == Flatten(response)
  {
    versions, oses, arches := [], [], [];
    var items := response.versions;
    for i := 0 to |items|
      invariant |versions| == |oses| == |arches|
      invariant Unnest(versions, oses, arches) == FlattenItems(items[..i])
    {
      var item := items[i];
      ghost var before := Unnest(versions, oses, arches);
      for j := 0 to |item.platforms|
        invariant |versions| == |oses| == |arches|
        invariant Unnest(versions, oses, arches) == before + FlattenItem(item)[..j]
      {
        var platform := item.platforms[j];
        ghost var zipped := Unnest(versions, oses, arches);
        versions, oses, arches := versions + [item.version], oses + [platform.os], arches + [platform.arch];
        assert Unnest(versions, oses, arches) == zipped + [TupleOf(item.version, platform)];
        assert FlattenItem(item)[..j + 1] == FlattenItem(item)[..j] + [TupleOf(item.version, platform)];
      }
      assert FlattenItem(item)[..|item.platforms|] == FlattenItem(item);
      assert items[..i + 1][..i] == items[..i];
    }
    assert items[..|items|] == items;
  }

  // ---------------------------------------------------------------- index round trip

  /** After a store the provider lists exactly what it listed before and the versions with a platform. */
  lemma StoredNames(t: Tables, p: Provider, response: ProviderVersions, freshId: Id, ids: seq<Id>, now: Time)
    requires Constraints(t) && freshId !in t.providers && |ids| == |Flatten(response)| && FreshIds(t, ids)
    requires Store(t, p, Flatten(response), freshId, ids, now).Ok?
    ensures VersionNames(Store(t, p, Flatten(response), freshId, ids, now).value.tables, p)
            == VersionNames(t, p) + NamesWithPlatform(response)
  {
    var u := Store(t, p, Flatten(response), freshId, ids, now).value.tables;
    StoreIsUnion(t, p, Flatten(response), freshId, ids, now);
    NamesAreTupleNames(t, p);
    NamesAreTupleNames(u, p);
    NamesOfFlatten(response);
  }

  /** Whatever was known of the provider: after a store the index listed from the catalogue is the index served
      straight from the response if and only if the response has a version, the catalogue knew no version
      name that the response lacks, and each name of the response has a platform or was known. */
  lemma ReadBackIff(t: Tables, p: Provider, response: ProviderVersions, freshId: Id, ids: seq<Id>, now: Time)
    requires Constraints(t) && freshId !in t.providers && |ids| == |Flatten(response)| && FreshIds(t, ids)
    requires Store(t, p, Flatten(response), freshId, ids, now).Ok?
    ensures var u := Store(t, p, Flatten(response), freshId, ids, now).value.tables;
      ListingOf(u, p) == Some(IndexOf(Names(response))) <==>
        && response.versions != [] && VersionNames(t, p) <= Names(response)
        && forall n :: n in Names(response) ==> n in NamesWithPlatform(response) || n in VersionNames(t, p)
  {
    var u := Store(t, p, Flatten(response), freshId, ids, now).value.tables;
    StoredNames(t, p, response, freshId, ids, now);
    ListedIsServedIff(u, p, response);
    PlatformNamesAreNames(response);
  }

  /** A listing is the index of a response exactly if it has the same names, and some. */
  lemma ListedIsServedIff(t: Tables, p: Provider, response: ProviderVersions)
    ensures ListingOf(t, p) == Some(IndexOf(Names(response))) <==>
              response.versions != [] && VersionNames(t, p) == Names(response)
  {
    NamesAreTupleNames(t, p);
    if response.versions != [] {
      assert response.versions[0].version in Names(response);
    }
    if ListingOf(t, p) == Some(IndexOf(Names(response))) {
      IndexOfInjective(VersionNames(t, p), Names(response));
    }
  }

  lemma PlatformNamesAreNames(response: ProviderVersions)
    ensures NamesWithPlatform(response) <= Names(response)
  {
  }

  /** For a provider not known before: the two agree if and only if the response has a version and each of
      its names has a platform; in any case no more is listed than was served. */
  lemma FirstListing(t: Tables, p: Provider, response: ProviderVersions, freshId: Id, ids: seq<Id>, now: Time)
    requires Constraints(t) && freshId !in t.providers && |ids| == |Flatten(response)| && FreshIds(t, ids)
    requires Store(t, p, Flatten(response), freshId, ids, now).Ok? && RowsOf(t, p) == {}
    ensures var u := Store(t, p, Flatten(response), freshId, ids, now).value.tables;
      && (ListingOf(u, p) == Some(IndexOf(Names(response))) <==>
            response.versions != [] && forall n :: n in Names(response) ==> n in NamesWithPlatform(response))
      && VersionNames(u, p) <= Names(response)
      && (ListingOf(u, p).None? <==> NamesWithPlatform(response) == {})
  {
    NamesAreTupleNames(t, p);
    NamesAreTupleNames(Store(t, p, Flatten(response), freshId, ids, now).value.tables, p);
    StoredNames(t, p, response, freshId, ids, now);
    ReadBackIff(t, p, response, freshId, ids, now);
    PlatformNamesAreNames(response);
  }
}
