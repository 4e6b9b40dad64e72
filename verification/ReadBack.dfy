/** The two ways an index is served, from the catalogue and straight from a refresh: when a request takes
    which, and when they agree. */
module ReadBack {
  import opened Basics
  import opened Decimal
  import opened Catalogue
  import opened Index
  import opened Mirror
  import opened MirrorTheorems
  import Inst = Instance
  import IP = IndexProgram
  import RP = RefreshProgram
  import Scenarios

  // ---------------------------------------------------------------- which way

  /** Some committed response for the provider, from whichever instance, had a platform. */
  ghost predicate Known(w: World, p: Provider) {
    exists k :: 0 <= k < |w.log| && w.log[k].provider == p && NamesWithPlatform(w.log[k].versions) != {}
  }

  /** Some response for the provider was committed. */
  ghost predicate Met(w: World, p: Provider) {
    exists k :: 0 <= k < |w.log| && w.log[k].provider == p
  }

  /** The handler turns to the refresher. */
  predicate Waits(w: World, i: nat, h: nat, p: Provider) {
    i in w.instances && h in w.instances[i].handlers && w.instances[i].handlers[h].pc == IP.Sending(p)
  }

  /** After its read a request turns to the refresher if and only if the read failed or no committed
      response for the provider ever had a platform. */
  lemma WaitsIff(prefix: string, w: World, i: nat, h: nat, p: Provider, listing: Result<Option<MirrorIndex>, DbError>,
                 d: Drawn, lost: bool)
    requires Reachable(prefix, w) && Do(w, Local(i, Inst.Handle(h, IP.Listed(p, listing)), d, lost)).Some?
    ensures var w' := Do(w, Local(i, Inst.Handle(h, IP.Listed(p, listing)), d, lost)).value;
      Waits(w', i, h, p) <==> listing.Err? || !Known(w, p)
  {
    ListingIsWhatWasOffered(prefix, w, p);
    assert ListingOf(w.shared.tables, p).None? <==> !Known(w, p);
  }

  /** So the refresher is waited for only on behalf of providers no response was ever committed for, if and
      only if the provider is one, or the read did not fail and some committed response had a platform. */
  lemma OnlyNewOnesWaitIff(prefix: string, w: World, i: nat, h: nat, p: Provider,
                           listing: Result<Option<MirrorIndex>, DbError>, d: Drawn, lost: bool)
    requires Reachable(prefix, w) && Do(w, Local(i, Inst.Handle(h, IP.Listed(p, listing)), d, lost)).Some?
    ensures var w' := Do(w, Local(i, Inst.Handle(h, IP.Listed(p, listing)), d, lost)).value;
      (Waits(w', i, h, p) ==> !Met(w, p)) <==> !Met(w, p) || (listing.Ok? && Known(w, p))
  {
    WaitsIff(prefix, w, i, h, p, listing, d, lost);
  }

  // ---------------------------------------------------------------- what is served from the catalogue

  /** The handler holds this very index, or has served it, without ever having asked the refresher. */
  predicate Holds(f: Inst.Handler, p: Provider, index: MirrorIndex) {
    f.provider == p && (f.pc == IP.Notifying(p, index) || f.pc == IP.Served(index)) && f.got.None?
  }

  ghost predicate HoldsIn(w: World, i: nat, h: nat, p: Provider, index: MirrorIndex) {
    i in w.instances && h in w.instances[i].handlers && Holds(w.instances[i].handlers[h], p, index)
  }

  lemma LocalKeepsHeld(x: Inst.Inst, local: Inst.Step, logged: nat, h: nat, p: Provider, index: MirrorIndex)
    requires Inst.Do(x, local, logged).Some? && h in x.handlers && Holds(x.handlers[h], p, index)
    ensures var y := Inst.Do(x, local, logged).value; h in y.handlers && Holds(y.handlers[h], p, index)
  {
  }

  lemma {:induction false} RunKeepsHeld(w: World, steps: seq<Step>, w': World, i: nat, h: nat, p: Provider,
                                        index: MirrorIndex)
    requires Inv(w) && Leads(w, steps, w') && HoldsIn(w, i, h, p, index)
    ensures HoldsIn(w', i, h, p, index)
  {
    if steps != [] {
      var mid := LastStep(w, steps, w');
      RunKeepsHeld(w, Init(steps), mid, i, h, p, index);
      StepKeepsHeld(mid, Last(steps), i, h, p, index);
    }
  }

  lemma StepKeepsHeld(w: World, step: Step, i: nat, h: nat, p: Provider, index: MirrorIndex)
    requires Do(w, step).Some? && HoldsIn(w, i, h, p, index)
    ensures HoldsIn(Do(w, step).value, i, h, p, index)
  {
    if step.Local? && step.i == i {
      LocalMoves(w, i, step.local, step.drawn, step.lost);
      LocalKeepsHeld(w.instances[i], step.local, |w.log|, h, p, index);
    } else {
      BystanderStays(w, step, i);
    }
  }

  /** A read that finds the provider listed hands the handler exactly what the catalogue knows. */
  lemma ListedIsHeld(w: World, i: nat, h: nat, p: Provider, index: MirrorIndex, d: Drawn, lost: bool)
    requires Inv(w) && Do(w, Local(i, Inst.Handle(h, IP.Listed(p, Ok(Some(index)))), d, lost)).Some?
    ensures HoldsIn(Do(w, Local(i, Inst.Handle(h, IP.Listed(p, Ok(Some(index)))), d, lost)).value, i, h, p, index)
    ensures Shows(index, VersionNames(w.shared.tables, p)) && VersionNames(w.shared.tables, p) != {}
  {
    assert InstanceInv(w.instances[i], w.log, i);
    ReadIsHeld(w.instances[i], w.log, i, h, p, index);
    ListingShows(w.shared.tables, p, index);
  }

  lemma ReadIsHeld(x: Inst.Inst, log: seq<Inst.Commit>, i: nat, h: nat, p: Provider, index: MirrorIndex)
    requires Inst.AnswerInv(x, log, i) && Inst.Do(x, Inst.Handle(h, IP.Listed(p, Ok(Some(index)))), |log|).Some?
    ensures var y := Inst.Do(x, Inst.Handle(h, IP.Listed(p, Ok(Some(index)))), |log|).value;
      h in y.handlers && Holds(y.handlers[h], p, index)
  {
    assert Inst.HandlerInv(x, log, i, x.handlers[h]);
  }

  lemma ListingShows(t: Tables, p: Provider, index: MirrorIndex)
    requires ListingOf(t, p) == Some(index)
    ensures Shows(index, VersionNames(t, p)) && VersionNames(t, p) != {}
  {
    ShowsIsIndexOf(index, VersionNames(t, p));
    NamesAreTupleNames(t, p);
  }

  /** A request whose read found the provider listed is served, if it is served at all, exactly the version
      names that the catalogue knew at that read, whatever happens meanwhile; it is never refused and never
      asks the refresher to answer it. */
  lemma ServedAsListed(prefix: string, w: World, i: nat, h: nat, p: Provider, index: MirrorIndex, d: Drawn, lost: bool,
                       steps: seq<Step>, w': World)
    requires Reachable(prefix, w)
    requires var read := Local(i, Inst.Handle(h, IP.Listed(p, Ok(Some(index)))), d, lost);
             Do(w, read).Some? && Leads(Do(w, read).value, steps, w')
    ensures i in w'.instances && h in w'.instances[i].handlers
    ensures var f := w'.instances[i].handlers[h];
      && f.got.None? && (f.pc.Notifying? || f.pc.Served?)
      && f.pc.index.versions.Keys == VersionNames(w.shared.tables, p)
      && forall n :: n in f.pc.index.versions ==> f.pc.index.versions[n] == map[]
  {
    var read := Local(i, Inst.Handle(h, IP.Listed(p, Ok(Some(index)))), d, lost);
    ReachableInv(prefix, w);
    StepInv(w, read);
    ListedIsHeld(w, i, h, p, index, d, lost);
    RunKeepsHeld(Do(w, read).value, steps, w', i, h, p, index);
  }

  // ---------------------------------------------------------------- when they agree

  /** Some committed response offered this version name with a platform. */
  ghost predicate OfferedName(w: World, p: Provider, n: string) {
    exists k :: 0 <= k < |w.log| && w.log[k].provider == p && n in NamesWithPlatform(w.log[k].versions)
  }

  /** For a request that was served straight from a refresh: at any later time the catalogue lists the very
      index it was served if and only if the response had a version, every name that any committed
      response offered with a platform is one of its names, and each of its names was so offered. */
  lemma ReadBackIffOffered(prefix: string, w: World, steps: seq<Step>, w': World, i: nat, h: nat,
                           versions: ProviderVersions)
    requires Reachable(prefix, w) && Leads(w, steps, w') && i in w.instances && h in w.instances[i].handlers
    requires w.instances[i].handlers[h].got == Some(Some(RP.RefreshPerformed(Ok(versions))))
    ensures var f := w.instances[i].handlers[h];
      && f.pc == IP.Served(IndexOf(Names(versions)))
      && (ListingOf(w'.shared.tables, f.provider) == Some(f.pc.index) <==>
            && versions.versions != []
            && (forall n :: OfferedName(w', f.provider, n) ==> n in Names(versions))
            && (forall n :: n in Names(versions) ==> OfferedName(w', f.provider, n)))
  {
    DurableReply(prefix, w, steps, w', i, h, versions);
    ReachableOn(prefix, w, steps, w');
    ListedIffOffered(prefix, w', w.instances[i].handlers[h].provider, versions);
  }

  lemma ReachableOn(prefix: string, w: World, steps: seq<Step>, w': World)
    requires Reachable(prefix, w) && Leads(w, steps, w')
    ensures Reachable(prefix, w')
  {
    var past :| Leads(Mirror.Start(prefix), past, w);
    ExecAppend(Mirror.Start(prefix), past, steps);
    assert Leads(Mirror.Start(prefix), past + steps, w');
  }

  lemma ListedIffOffered(prefix: string, w: World, p: Provider, versions: ProviderVersions)
    requires Reachable(prefix, w)
    ensures ListingOf(w.shared.tables, p) == Some(IndexOf(Names(versions))) <==>
              && versions.versions != []
              && (forall n :: OfferedName(w, p, n) ==> n in Names(versions))
              && (forall n :: n in Names(versions) ==> OfferedName(w, p, n))
  {
    var listed, names := VersionNames(w.shared.tables, p), Names(versions);
    ListingIsWhatWasOffered(prefix, w, p);
    ListedIsServedIff(w.shared.tables, p, versions);
    assert forall n :: n in listed <==> OfferedName(w, p, n);
    assert listed == names <==> (forall n :: n in listed ==> n in names) && (forall n :: n in names ==> n in listed);
  }

  // ---------------------------------------------------------------- runs that show it

  function Offering(name: string, platforms: seq<ProviderPlatform>): ProviderVersions {
    ProviderVersions([ProviderVersionItem(name, [], platforms)])
  }

  const LINUX: seq<ProviderPlatform> := [ProviderPlatform("linux", "amd64")]

  lemma OfferingIs(p: Provider, name: string, platforms: seq<ProviderPlatform>)
    requires ProviderFits(p) && |name| <= 255 && (platforms == [] || platforms == LINUX)
    ensures !TooLong(p, Offering(name, platforms)) && |Flatten(Offering(name, platforms))| <= 1
    ensures Names(Offering(name, platforms)) == {name}
    ensures NamesWithPlatform(Offering(name, platforms)) == if platforms == [] then {} else {name}
  {
    var items := Offering(name, platforms).versions;
    assert Init(items) == [] && items[..0] == [];
    assert FlattenItems(items) == FlattenItems([]) + FlattenItem(items[0]);
    assert items[0].version in Names(Offering(name, platforms));
  }

  /** A provider known with one version is served, after a failed read, a response with another: each
      version of the response has a platform, and still the catalogue lists something else. */
  lemma ReadBackCanDiffer(prefix: string, interval: nat, p: Provider) returns (w: World)
    requires ProviderFits(p)
    ensures Reachable(prefix, w) && 1 in w.instances && 1 in w.instances[1].handlers
    ensures var b := Offering("2", LINUX);
      && Scenarios.IsServed(w.instances[1].handlers[1], p, b) && w.instances[1].handlers[1].missedAt.None?
      && b.versions != [] && (forall n :: n in Names(b) ==> n in NamesWithPlatform(b))
      && ListingOf(w.shared.tables, p).Some? && ListingOf(w.shared.tables, p) != Some(IndexOf(Names(b)))
  {
    var a, b := Offering("1", LINUX), Offering("2", LINUX);
    OfferingIs(p, "1", LINUX);
    OfferingIs(p, "2", LINUX);
    var steps;
    steps, w := Scenarios.TwoInstancesServe(prefix, interval, p, a, b);
    assert w.log[0].provider == p && "1" in NamesWithPlatform(w.log[0].versions);
    assert OfferedName(w, p, "1") && "1" !in Names(b);
    ListedIffOffered(prefix, w, p, b);
    ListingIsWhatWasOffered(prefix, w, p);
  }

  /** And one known with a version is served the same name without a platform: the catalogue lists just that. */
  lemma ReadBackCanAgree(prefix: string, interval: nat, p: Provider) returns (w: World)
    requires ProviderFits(p)
    ensures Reachable(prefix, w) && 1 in w.instances && 1 in w.instances[1].handlers
    ensures var b := Offering("1", []);
      && Scenarios.IsServed(w.instances[1].handlers[1], p, b) && NamesWithPlatform(b) == {}
      && ListingOf(w.shared.tables, p) == Some(IndexOf(Names(b)))
  {
    var a, b := Offering("1", LINUX), Offering("1", []);
    OfferingIs(p, "1", LINUX);
    OfferingIs(p, "1", []);
    var steps;
    steps, w := Scenarios.TwoInstancesServe(prefix, interval, p, a, b);
    assert w.log[0].provider == p && w.log[0].versions == a && w.log[1].versions == b;
    assert OfferedName(w, p, "1");
    forall n | OfferedName(w, p, n) ensures n in Names(b) {
      var k :| 0 <= k < |w.log| && w.log[k].provider == p && n in NamesWithPlatform(w.log[k].versions);
      assert k == 0 || k == 1;
    }
    ListedIffOffered(prefix, w, p, b);
  }
}
