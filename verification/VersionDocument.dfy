/** The version document: the installation packages of one version, each with the address of its
    artifact, and the way back from that address to the row. */
module VersionDocument {
  import opened Basics
  import opened Decimal
  import opened Catalogue

  datatype Download = Download(os: string, arch: string, id: Id)

  datatype TargetPlatformIdentifier = TargetPlatformIdentifier(url: string)

  /** The answer to "List Available Installation Packages" of the Provider Network Mirror Protocol. */
  datatype MirrorVersion = MirrorVersion(archives: map<string, TargetPlatformIdentifier>)

  // ---------------------------------------------------------------- the version segment of the route

  const SUFFIX: string := ".json"

  predicate HasSuffix(s: string) {
    |s| >= |SUFFIX| && s[|s| - |SUFFIX|..] == SUFFIX
  }

  datatype Version = Version(full: string) {
    predicate Valid() {
      HasSuffix(full)
    }

    function Prefix(): string
      requires Valid()
    {
      full[..|full| - |SUFFIX|]
    }
  }

  function TryFrom(value: string): (r: Result<Version, string>)
    ensures r.Ok? ==> r.value.Valid() && r.value.full == value
    ensures r.Ok? <==> exists prefix :: value == prefix + ".json"
    ensures r.Err? ==> r.error == value
  {
    if HasSuffix(value) then
      assert value == value[..|value| - |SUFFIX|] + SUFFIX;
      Ok(Version(value))
    else
      Err(value)
  }

  /** Every version name is reachable, and only under its own segment. */
  lemma VersionRoundTrip(name: string, value: string)
    ensures TryFrom(name + ".json").Ok? && TryFrom(name + ".json").value.Prefix() == name
    ensures TryFrom(value).Ok? && TryFrom(value).value.Prefix() == name ==> value == name + ".json"
  {
    assert (name + SUFFIX)[|name|..] == SUFFIX;
    assert (name + SUFFIX)[..|name|] == name;
    if TryFrom(value).Ok? {
      assert value == value[..|value| - |SUFFIX|] + SUFFIX;
    }
  }

  // ---------------------------------------------------------------- names and addresses

  function Name(os: string, arch: string): string {
    os + "_" + arch
  }

  function Url(baseUrl: string, id: Id): string {
    baseUrl + "artifacts/" + ToString(id)
  }

  method ArchiveName(os: string, arch: string) returns (s: string)
    ensures s == Name(os, arch)
    ensures |s| == |os| + 1 + |arch| && s[..|os|] == os && s[|os|] == '_' && s[|os| + 1..] == arch
  {
    s := [];
    s := s + os;
    s := s + ['_'];
    s := s + arch;
  }

  /** What the artifact route sees of a path: its last segment. */
  function LastSegment(url: string): string {
    if url == [] || url[|url| - 1] == '/' then [] else LastSegment(url[..|url| - 1]) + [url[|url| - 1]]
  }

  lemma {:induction false} LastSegmentAfter(front: string, segment: string)
    requires front != [] && front[|front| - 1] == '/' && '/' !in segment
    ensures LastSegment(front + segment) == segment
  {
    if segment == [] {
      assert front + segment == front;
    } else {
      var init := segment[..|segment| - 1];
      LastSegmentAfter(front, init);
      assert (front + segment)[..|front + segment| - 1] == front + init;
      assert init + [segment[|segment| - 1]] == segment;
    }
  }

  /** The address of an artifact leads back to its row id, for every 64-bit id. */
  lemma UrlRoundTrip(baseUrl: string, id: Id)
    ensures ParseI64(LastSegment(Url(baseUrl, id))) == Some(id)
  {
    var value: int := id;
    DigitsFold(if value < 0 then -value else value);
    LastSegmentAfter(baseUrl + "artifacts/", ToString(id));
    PrintParse(id);
  }

  /** The address is the base address, the artifact directory and the row id in decimal. */
  predicate LeadsTo(baseUrl: string, url: string, id: Id) {
    && baseUrl <= url && |url| >= |baseUrl| + 10 && url[|baseUrl|..|baseUrl| + 10] == "artifacts/"
    && ParseI64(url[|baseUrl| + 10..]) == Some(id) && ParseI64(LastSegment(url)) == Some(id)
  }

  lemma UrlLeadsTo(baseUrl: string, id: Id)
    ensures LeadsTo(baseUrl, Url(baseUrl, id), id)
  {
    var url := Url(baseUrl, id);
    assert url == baseUrl + ("artifacts/" + ToString(id));
    assert url[|baseUrl|..|baseUrl| + 10] == "artifacts/";
    assert url[|baseUrl| + 10..] == ToString(id);
    PrintParse(id);
    UrlRoundTrip(baseUrl, id);
  }

  method BuildUrl(baseUrl: string, id: Id) returns (s: string)
    ensures s == Url(baseUrl, id)
    ensures baseUrl <= s && |s| >= |baseUrl| + 10 && s[|baseUrl|..|baseUrl| + 10] == "artifacts/"
    ensures ParseI64(s[|baseUrl| + 10..]) == Some(id)
  {
    UrlLeadsTo(baseUrl, id);
    s := baseUrl;
    s := s + "artifacts/";
    s := s + ToString(id);
  }

  /** Where the first separator of an archive name is. */
  function FirstSeparator(s: string): nat {
    if s == [] || s[0] == '_' then 0 else 1 + FirstSeparator(s[1..])
  }

  /** The platform a client reads off an archive name. */
  function Platform(name: string): (string, string) {
    var k := FirstSeparator(name);
    if k < |name| then (name[..k], name[k + 1..]) else (name, "")
  }

  lemma {:induction false} FirstSeparatorOf(os: string, rest: string)
    requires '_' !in os
    ensures FirstSeparator(os + "_" + rest) == |os|
  {
    if os == [] {
      assert (os + "_" + rest)[0] == '_';
    } else {
      FirstSeparatorOf(os[1..], rest);
      assert (os + "_" + rest)[1..] == os[1..] + "_" + rest;
    }
  }

  lemma {:induction false} FirstSeparatorWithin(s: string)
    ensures FirstSeparator(s) <= |s| && '_' !in s[..FirstSeparator(s)]
  {
    if s != [] && s[0] != '_' {
      FirstSeparatorWithin(s[1..]);
      assert s[..FirstSeparator(s)] == [s[0]] + s[1..][..FirstSeparator(s[1..])];
    }
  }

  /** A name reads back as its platform exactly when the operating system has no separator in it. */
  lemma NameReadsBackIff(os: string, arch: string)
    ensures Platform(Name(os, arch)) == (os, arch) <==> '_' !in os
  {
    if '_' !in os {
      FirstSeparatorOf(os, arch);
      assert Name(os, arch)[..|os|] == os;
      assert Name(os, arch)[|os| + 1..] == arch;
    } else {
      FirstSeparatorWithin(Name(os, arch));
    }
  }

  /** Without that condition two platforms can share a name. */
  lemma NamesCanCollide()
    ensures Name("a_b", "c") == Name("a", "b_c") && ("a_b", "c") != ("a", "b_c")
  {
    assert Name("a_b", "c") == "a_b_c";
    assert Name("a", "b_c") == "a_b_c";
  }

  // ---------------------------------------------------------------- the document

  ghost predicate LastWith(rows: seq<Download>, name: string, k: int) {
    && 0 <= k < |rows| && Name(rows[k].os, rows[k].arch) == name
    && forall j :: k < j < |rows| ==> Name(rows[j].os, rows[j].arch) != name
  }

  /** The document of a list of rows: each name that occurs leads to the last row that has it. */
  ghost predicate Documents(doc: MirrorVersion, rows: seq<Download>, baseUrl: string) {
    && (forall name :: name in doc.archives <==> exists k :: LastWith(rows, name, k))
    && (forall name, k :: name in doc.archives && LastWith(rows, name, k) ==>
          doc.archives[name] == TargetPlatformIdentifier(Url(baseUrl, rows[k].id)))
  }

  /** A further row takes over its own name and leaves the others where they were. */
  lemma LastWithSnoc(rows: seq<Download>, i: nat, name: string, k: int)
    requires i < |rows| && Name(rows[i].os, rows[i].arch) != name
    ensures LastWith(rows[..i + 1], name, k) <==> LastWith(rows[..i], name, k)
  {
    var shorter, longer := rows[..i], rows[..i + 1];
    assert forall j :: 0 <= j < i ==> longer[j] == shorter[j];
    assert longer[i] == rows[i];
    if LastWith(longer, name, k) {
      forall j | k < j < i ensures Name(shorter[j].os, shorter[j].arch) != name {
        assert Name(longer[j].os, longer[j].arch) != name;
      }
    }
  }

  lemma DocumentsSnoc(archives: map<string, TargetPlatformIdentifier>, rows: seq<Download>, i: nat, baseUrl: string)
    requires i < |rows| && Documents(MirrorVersion(archives), rows[..i], baseUrl)
    ensures var target := Name(rows[i].os, rows[i].arch);
      Documents(MirrorVersion(archives[target := TargetPlatformIdentifier(Url(baseUrl, rows[i].id))]), rows[..i + 1],
                baseUrl)
  {
    var target := Name(rows[i].os, rows[i].arch);
    var longer := rows[..i + 1];
    assert LastWith(longer, target, i);
    forall name, k | name != target
      ensures LastWith(longer, name, k) <==> LastWith(rows[..i], name, k)
      ensures LastWith(longer, name, k) ==> longer[k] == rows[..i][k]
    {
      LastWithSnoc(rows, i, name, k);
    }
  }

  method Build(rows: seq<Download>, baseUrl: string) returns (doc: MirrorVersion)
    ensures Documents(doc, rows, baseUrl)
  {
    var archives: map<string, TargetPlatformIdentifier> := map[];
    for i := 0 to |rows|
      invariant Documents(MirrorVersion(archives), rows[..i], baseUrl)
    {
      DocumentsSnoc(archives, rows, i, baseUrl);
      var target := ArchiveName(rows[i].os, rows[i].arch);
      var url := BuildUrl(baseUrl, rows[i].id);
      archives := archives[target := TargetPlatformIdentifier(url)];
    }
    assert rows[..|rows|] == rows;
    doc := MirrorVersion(archives);
  }

  /** `rows` are the rows of one version of a provider, each once, in whatever order the query gave them. */
  ghost predicate Downloads(t: Tables, p: Provider, version: string, rows: seq<Download>) {
    && (forall k :: 0 <= k < |rows| ==>
          Joins(t, rows[k].id, p) && t.versions[rows[k].id].tuple == Tuple(version, rows[k].os, rows[k].arch))
    && (forall i :: Joins(t, i, p) && t.versions[i].tuple.version == version ==>
          Download(t.versions[i].tuple.os, t.versions[i].tuple.arch, i) in rows)
    && (forall j, k :: 0 <= j < k < |rows| ==> rows[j].id != rows[k].id)
  }

  /** The rows of one version of a provider. */
  function Matching(t: Tables, p: Provider, version: string): set<Id> {
    set i | i in t.versions && Joins(t, i, p) && t.versions[i].tuple.version == version
  }

  /** The query answers row after row and then says that there are no more; `fault` is the number of rows
      after which it fails, if it does. The fault cuts the answer short. */
  predicate CutShort(t: Tables, p: Provider, version: string, fault: Option<nat>) {
    fault.Some? && fault.value <= |Matching(t, p, version)|
  }

  /** The rows come in no particular order, here that of arbitrary choice. */
  method ListDownloads(t: Tables, p: Provider, version: string, fault: Option<nat>)
    returns (r: Result<seq<Download>, DbError>)
    ensures r.Ok? <==> !CutShort(t, p, version, fault)
    ensures r.Ok? ==> Downloads(t, p, version, r.value)
  {
    var rows: seq<Download> := [];
    var matching := Matching(t, p, version);
    var rest := matching;
    while rest != {}
      invariant |rows| + |rest| == |matching|
      invariant fault.Some? ==> fault.value >= |rows|
      invariant rest <= matching
      invariant forall k :: 0 <= k < |rows| ==>
                  rows[k].id in matching - rest
                  && t.versions[rows[k].id].tuple == Tuple(version, rows[k].os, rows[k].arch)
      invariant forall i :: i in matching - rest ==>
                Download(t.versions[i].tuple.os, t.versions[i].tuple.arch, i) in rows
      invariant forall j, k :: 0 <= j < k < |rows| ==> rows[j].id != rows[k].id
      decreases |rest|
    {
      if fault == Some(|rows|) {
        return Err(Unavailable);
      }
      var i :| i in rest;
      rest := rest - {i};
      rows := rows + [Download(t.versions[i].tuple.os, t.versions[i].tuple.arch, i)];
    }
    r := if fault == Some(|rows|) then Err(Unavailable) else Ok(rows);
  }

  datatype VersionError = NotAVersion(segment: string) | QueryFailed

  /** Some rows of the query answer make this document. */
  ghost predicate DocumentOf(doc: MirrorVersion, t: Tables, p: Provider, version: string, baseUrl: string) {
    exists rows :: Downloads(t, p, version, rows) && Documents(doc, rows, baseUrl)
  }

  /** Answers a request for the version document named by the last segment of its route. */
  method VersionHandler(t: Tables, p: Provider, segment: string, baseUrl: string, fault: Option<nat>)
    returns (r: Result<MirrorVersion, VersionError>)
    ensures (forall version :: segment != version + ".json") ==> r == Err(NotAVersion(segment))
    ensures forall version | segment == version + ".json" ::
              if CutShort(t, p, version, fault) then r == Err(QueryFailed)
              else r.Ok? && DocumentOf(r.value, t, p, version, baseUrl)
  {
    match TryFrom(segment) {
      case Err(value) => return Err(NotAVersion(value));
      case Ok(version) =>
        assert segment == version.Prefix() + ".json";
        assert forall name :: segment == name + ".json" ==> name == segment[..|segment| - 5];
        var rows := ListDownloads(t, p, version.Prefix(), fault);
        if rows.Err? {
          return Err(QueryFailed);
        }
        var doc := Build(rows.value, baseUrl);
        assert DocumentOf(doc, t, p, version.Prefix(), baseUrl);
        r := Ok(doc);
    }
  }

  /** If no operating system has a separator in its name, the document has one entry for each row, and
      its address leads back to a row with exactly the platform of the name. */
  lemma DocumentIsFaithful(t: Tables, p: Provider, version: string, rows: seq<Download>, doc: MirrorVersion,
                           baseUrl: string)
    requires Constraints(t) && Downloads(t, p, version, rows) && Documents(doc, rows, baseUrl)
    requires forall k :: 0 <= k < |rows| ==> '_' !in rows[k].os
    ensures forall i :: Joins(t, i, p) && t.versions[i].tuple.version == version ==>
              var name := Name(t.versions[i].tuple.os, t.versions[i].tuple.arch);
              name in doc.archives && LeadsTo(baseUrl, doc.archives[name].url, i)
    ensures |doc.archives| == |rows|
  {
    forall k | 0 <= k < |rows|
      ensures LastWith(rows, NameOf(rows[k]), k)
    {
      OnlyRowWithName(t, p, version, rows, k);
    }
    forall i | Joins(t, i, p) && t.versions[i].tuple.version == version
      ensures var name := Name(t.versions[i].tuple.os, t.versions[i].tuple.arch);
              name in doc.archives && LeadsTo(baseUrl, doc.archives[name].url, i)
    {
      RowIsServed(t, p, version, rows, doc, baseUrl, i);
    }
    assert Distinct(rows);
    OneEntryEachIff(doc, rows, baseUrl);
  }

  lemma RowIsServed(t: Tables, p: Provider, version: string, rows: seq<Download>, doc: MirrorVersion, baseUrl: string,
                    i: Id)
    requires Downloads(t, p, version, rows) && Documents(doc, rows, baseUrl)
    requires forall k :: 0 <= k < |rows| ==> LastWith(rows, NameOf(rows[k]), k)
    requires Joins(t, i, p) && t.versions[i].tuple.version == version
    ensures var name := Name(t.versions[i].tuple.os, t.versions[i].tuple.arch);
      name in doc.archives && LeadsTo(baseUrl, doc.archives[name].url, i)
  {
    var k :| 0 <= k < |rows| && rows[k] == Download(t.versions[i].tuple.os, t.versions[i].tuple.arch, i);
    assert LastWith(rows, NameOf(rows[k]), k);
    UrlLeadsTo(baseUrl, i);
  }

  lemma OnlyRowWithName(t: Tables, p: Provider, version: string, rows: seq<Download>, k: nat)
    requires Constraints(t) && Downloads(t, p, version, rows) && k < |rows|
    requires forall k :: 0 <= k < |rows| ==> '_' !in rows[k].os
    ensures LastWith(rows, Name(rows[k].os, rows[k].arch), k)
  {
    forall j | k < j < |rows| ensures Name(rows[j].os, rows[j].arch) != Name(rows[k].os, rows[k].arch) {
      NameReadsBackIff(rows[j].os, rows[j].arch);
      NameReadsBackIff(rows[k].os, rows[k].arch);
    }
  }

  function NameOf(row: Download): string {
    Name(row.os, row.arch)
  }

  function NamesOf(rows: seq<Download>): set<string> {
    set k | 0 <= k < |rows| :: NameOf(rows[k])
  }

  lemma {:induction false} LastExists(rows: seq<Download>, name: string)
    requires name in NamesOf(rows)
    ensures exists k :: LastWith(rows, name, k)
  {
    var n := |rows| - 1;
    if NameOf(rows[n]) == name {
      assert LastWith(rows, name, n);
    } else {
      var init := rows[..n];
      var j :| 0 <= j < |rows| && NameOf(rows[j]) == name;
      assert NameOf(init[j]) == name;
      LastExists(init, name);
      var k :| LastWith(init, name, k);
      forall j | k < j < |rows| ensures Name(rows[j].os, rows[j].arch) != name {
        assert j < n ==> rows[j] == init[j];
      }
      assert LastWith(rows, name, k);
    }
  }

  /** The names of a document are those of the rows. */
  lemma DocumentNames(doc: MirrorVersion, rows: seq<Download>, baseUrl: string)
    requires Documents(doc, rows, baseUrl)
    ensures doc.archives.Keys == NamesOf(rows)
  {
    forall name ensures name in doc.archives <==> name in NamesOf(rows) {
      if name in NamesOf(rows) {
        LastExists(rows, name);
      }
      if name in doc.archives {
        var k :| LastWith(rows, name, k);
        assert NameOf(rows[k]) == name;
      }
    }
  }

  /** No two rows share a name. */
  predicate Distinct(rows: seq<Download>) {
    forall j, k :: 0 <= j < k < |rows| ==> NameOf(rows[j]) != NameOf(rows[k])
  }

  lemma {:induction false} AtMostOneEach(rows: seq<Download>)
    ensures |NamesOf(rows)| <= |rows|
    ensures |NamesOf(rows)| == |rows| <==> Distinct(rows)
  {
    if rows != [] {
      var init, last := rows[..|rows| - 1], rows[|rows| - 1];
      assert rows == init + [last];
      AtMostOneEach(init);
      NamesOfSnoc(init, last);
      if NameOf(last) in NamesOf(init) {
        var j :| 0 <= j < |init| && NameOf(init[j]) == NameOf(last);
        assert NameOf(rows[j]) == NameOf(rows[|rows| - 1]);
        assert NamesOf(rows) == NamesOf(init);
      } else {
        DistinctSnoc(init, last);
      }
    }
  }

  lemma DistinctSnoc(rows: seq<Download>, row: Download)
    requires NameOf(row) !in NamesOf(rows)
    ensures Distinct(rows + [row]) <==> Distinct(rows)
  {
    var longer := rows + [row];
    assert forall k :: 0 <= k < |rows| ==> longer[k] == rows[k] && NameOf(rows[k]) in NamesOf(rows);
    if Distinct(longer) {
      forall j, k | 0 <= j < k < |rows| ensures NameOf(rows[j]) != NameOf(rows[k]) {
        assert NameOf(longer[j]) != NameOf(longer[k]);
      }
    }
  }

  lemma NamesOfSnoc(rows: seq<Download>, row: Download)
    ensures NamesOf(rows + [row]) == NamesOf(rows) + {NameOf(row)}
  {
    assert (rows + [row])[|rows|] == row;
    forall k | 0 <= k < |rows| ensures (rows + [row])[k] == rows[k] {}
  }

  /** A document has one entry for each row exactly if no two rows share a name, fewer otherwise, and
      none exactly if there is no row. */
  lemma OneEntryEachIff(doc: MirrorVersion, rows: seq<Download>, baseUrl: string)
    requires Documents(doc, rows, baseUrl)
    ensures |doc.archives| <= |rows|
    ensures |doc.archives| == |rows| <==> Distinct(rows)
    ensures doc.archives == map[] <==> rows == []
  {
    DocumentNames(doc, rows, baseUrl);
    AtMostOneEach(rows);
    assert |doc.archives| == |doc.archives.Keys|;
    if rows != [] {
      assert NameOf(rows[0]) in doc.archives.Keys;
    } else {
      assert doc.archives.Keys == {};
    }
  }

  /** In every case an entry leads to a row of the very version, whose name is the entry's. */
  lemma EntryLeadsToRow(t: Tables, p: Provider, version: string, rows: seq<Download>, doc: MirrorVersion,
                        baseUrl: string, name: string)
    returns (id: Id)
    requires Downloads(t, p, version, rows) && Documents(doc, rows, baseUrl) && name in doc.archives
    ensures LeadsTo(baseUrl, doc.archives[name].url, id)
    ensures Joins(t, id, p) && t.versions[id].tuple.version == version
    ensures Name(t.versions[id].tuple.os, t.versions[id].tuple.arch) == name
  {
    var k :| LastWith(rows, name, k);
    id := rows[k].id;
    UrlLeadsTo(baseUrl, id);
  }
}
