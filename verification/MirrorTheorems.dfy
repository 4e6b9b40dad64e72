/** The promises of the mirror, for every run from an empty catalogue and bucket: any number of
    instances and handlers, any interleaving, any failures. */
module MirrorTheorems {
  import opened Basics
  import opened Decimal
  import opened Catalogue
  import opened Index
  import opened VersionDocument
  import opened Mirror
  import AP = ArtifactProgram
  import AC = ArtifactCache
  import AT = ArtifactTheorems
  import Inst = Instance
  import IT = InstanceTheorems
  import IP = IndexProgram
  import Rec = Recovery
  import RP = RefreshProgram

  ghost predicate Reachable(prefix: string, w: World) {
    exists steps :: Leads(Mirror.Start(prefix), steps, w)
  }

  lemma ReachableInv(prefix: string, w: World)
    requires Reachable(prefix, w)
    ensures Inv(w)
  {
    var steps :| Leads(Mirror.Start(prefix), steps, w);
    StartInv(prefix);
    RunKeeps(Mirror.Start(prefix), steps, w);
  }

  lemma Onwards(prefix: string, w: World, steps: seq<Step>, w': World)
    requires Reachable(prefix, w) && Leads(w, steps, w')
    ensures Inv(w) && Inv(w') && Later(w, w')
  {
    ReachableInv(prefix, w);
    RunKeeps(w, steps, w');
  }

  // ---------------------------------------------------------------- artifacts

  /** In every reachable state each artifact id of the catalogue names a complete object holding the whole
      of an upstream stream fetched for exactly that row. */
  lemma CacheIsCoherent(prefix: string, w: World, v: Id)
    requires Reachable(prefix, w) && v in w.shared.tables.versions && w.shared.tables.versions[v].artifactId.Some?
    ensures AT.Genuine(w.shared, AP.S3Key(w.shared.cache.prefix, w.shared.tables.versions[v].artifactId.value), v)
  {
    ReachableInv(prefix, w);
    AT.CatalogueIsCoherent(w.shared, v);
  }

  /** A redirect once returned names such an object for the rest of the run, the same one, whatever other
      handlers record for the row meanwhile. */
  lemma RedirectsStayGood(prefix: string, w: World, steps: seq<Step>, w': World, h: nat)
    requires Reachable(prefix, w) && Leads(w, steps, w')
    requires h in w.shared.cache.fills && w.shared.cache.fills[h].pc.Redirected?
    ensures var f := w.shared.cache.fills[h];
      && AT.Genuine(w'.shared, f.pc.key, f.versionId)
      && AC.WasRecorded(w.shared.tables, w.shared.cache, f.pc.artifact.artifactId, f.versionId)
      && f.pc.key in w.shared.cache.bucket.objects
      && w'.shared.cache.bucket.objects[f.pc.key] == w.shared.cache.bucket.objects[f.pc.key]
  {
    Onwards(prefix, w, steps, w');
    AT.RedirectIsCoherent(w.shared, h);
    assert AT.FillLater(w.shared.cache.fills[h], w'.shared.cache.fills[h]);
    AT.RedirectIsCoherent(w'.shared, h);
  }

  lemma PrefixStays(prefix: string, w: World)
    requires Reachable(prefix, w)
    ensures w.shared.cache.prefix == prefix
  {
    var steps :| Leads(Mirror.Start(prefix), steps, w);
    StartInv(prefix);
    RunKeeps(Mirror.Start(prefix), steps, w);
  }

  /** In every reachable state, every object lies in the artifact directory under the configured prefix, and
      the rest of its key reads as the id that its maker allocated. */
  lemma ObjectsAreNamed(prefix: string, w: World, key: string)
    requires Reachable(prefix, w) && key in w.shared.cache.bucket.objects
    ensures prefix <= key && |key| >= |prefix| + 10 && key[|prefix|..|prefix| + 10] == "artifacts/"
    ensures var m := w.shared.cache.bucket.objects[key].maker;
      && m in w.shared.cache.fills && AP.IdOf(w.shared.cache.fills[m].trace).Some?
      && ParseI64(key[|prefix| + 10..]) == AP.IdOf(w.shared.cache.fills[m].trace)
  {
    ReachableInv(prefix, w);
    PrefixStays(prefix, w);
    AT.ObjectIsNamed(w.shared, key);
  }

  /** And every redirect names such a key, with the id of the artifact it is for. */
  lemma RedirectsAreNamed(prefix: string, w: World, h: nat)
    requires Reachable(prefix, w) && h in w.shared.cache.fills && w.shared.cache.fills[h].pc.Redirected?
    ensures var key := w.shared.cache.fills[h].pc.key;
      && prefix <= key && |key| >= |prefix| + 10 && key[|prefix|..|prefix| + 10] == "artifacts/"
      && ParseI64(key[|prefix| + 10..]) == Some(w.shared.cache.fills[h].pc.artifact.artifactId)
  {
    ReachableInv(prefix, w);
    PrefixStays(prefix, w);
    AT.RedirectIsNamed(w.shared, h);
  }

  /** No artifact id and no upload is ever shared by two handlers. */
  lemma NothingShared(prefix: string, w: World, g: nat, h: nat)
    requires Reachable(prefix, w) && g in w.shared.cache.fills && h in w.shared.cache.fills && g != h
    ensures var f, f' := w.shared.cache.fills[g].trace, w.shared.cache.fills[h].trace;
      && (AP.IdOf(f).Some? ==> AP.IdOf(f) != AP.IdOf(f'))
      && (AP.UploadOf(f).Some? ==> AP.UploadOf(f) != AP.UploadOf(f'))
  {
    ReachableInv(prefix, w);
    assert AC.Apart(w.shared.cache.fills[g], w.shared.cache.fills[h]);
  }

  /** Along every run an allocated id only moves forward through its phases. */
  lemma {:induction false} IdsMoveForward(w: World, steps: seq<Step>, w': World, h: nat, id: Id, p: AT.Phase,
                                          q: AT.Phase)
    requires Inv(w) && Leads(w, steps, w')
    requires h in w.shared.cache.fills && AP.IdOf(w.shared.cache.fills[h].trace) == Some(id)
    requires AT.InPhase(w.shared, h, id, p)
    requires h in w'.shared.cache.fills && AT.InPhase(w'.shared, h, id, q)
    ensures AT.MayBecome(p, q)
  {
    if steps == [] {
      var only := AT.ExactlyOnePhase(w.shared, h, id);
    } else {
      var mid := LastStep(w, steps, w');
      RunKeeps(w, Init(steps), mid);
      assert AT.FillLater(w.shared.cache.fills[h], mid.shared.cache.fills[h]);
      var r := AT.ExactlyOnePhase(mid.shared, h, id);
      IdsMoveForward(w, Init(steps), mid, h, id, p, r);
      StepMovesIdsForward(mid, Last(steps), h, id, r, q);
    }
  }

  lemma StepMovesIdsForward(w: World, step: Step, h: nat, id: Id, p: AT.Phase, q: AT.Phase)
    requires Inv(w) && Do(w, step).Some? && h in w.shared.cache.fills
    requires AP.IdOf(w.shared.cache.fills[h].trace) == Some(id)
    requires AT.InPhase(w.shared, h, id, p)
    requires h in Do(w, step).value.shared.cache.fills && AT.InPhase(Do(w, step).value.shared, h, id, q)
    ensures AT.MayBecome(p, q)
  {
    if step.Artifact? {
      AT.PhaseMovesForward(w.shared, step.a, h, id, p, q);
    } else {
      StoresKeepCurrent(w, step, id);
      SamePhase(w.shared, Do(w, step).value.shared, h, id, p, q);
    }
  }

  lemma SamePhase(s: AC.State, s': AC.State, h: nat, id: Id, p: AT.Phase, q: AT.Phase)
    requires AC.Inv(s) && s'.cache == s.cache && (AT.IsCurrent(s'.tables, id) <==> AT.IsCurrent(s.tables, id))
    requires h in s.cache.fills && AP.IdOf(s.cache.fills[h].trace) == Some(id)
    requires AT.InPhase(s, h, id, p) && AT.InPhase(s', h, id, q)
    ensures p == q
  {
    var only := AT.ExactlyOnePhase(s, h, id);
    assert AT.InPhase(s, h, id, q);
  }

  /** Index steps change neither the bucket nor any artifact column. */
  lemma StoresKeepCurrent(w: World, step: Step, id: Id)
    requires Constraints(w.shared.tables) && Do(w, step).Some? && !step.Artifact?
    ensures Do(w, step).value.shared.cache == w.shared.cache
    ensures AT.IsCurrent(Do(w, step).value.shared.tables, id) <==> AT.IsCurrent(w.shared.tables, id)
  {
    var c, d := OnlyStores(w, step);
    if c.Some? {
      StoreKeepsCurrent(w.shared.tables, c.value, d, id);
    }
  }

  /** An index step leaves the shared state alone, or makes one commit. */
  lemma OnlyStores(w: World, step: Step) returns (c: Option<Inst.Commit>, d: Drawn)
    requires Do(w, step).Some? && !step.Artifact?
    ensures c.None? ==> Do(w, step).value.shared == w.shared && Do(w, step).value.log == w.log
    ensures c.Some? ==> Do(w, step).value.log == w.log + [c.value]
    ensures c.Some? ==>
              var stored := Stored(w.shared.tables, c.value, d);
              stored.Some? && Do(w, step).value.shared == AC.State(stored.value, w.shared.cache)
  {
    c, d := None, Drawn(0, [], 0);
    match step
    case Local(i, local, drawn, lost) =>
      if local.Work? && local.w.StoreAnswered? && local.w.ok {
        c, d := Some(Inst.Commit(i, local.w.provider, local.w.versions)), drawn;
      }
    case LandStore(k, drawn) => c, d := Some(w.adrift[k]), drawn;
    case _ =>
  }

  lemma StoreKeepsCurrent(t: Tables, c: Inst.Commit, d: Drawn, id: Id)
    requires Constraints(t) && Stored(t, c, d).Some?
    ensures AT.IsCurrent(Stored(t, c, d).value, id) <==> AT.IsCurrent(t, id)
  {
    var t' := Stored(t, c, d).value;
    StoreRows(t, c.provider, Flatten(c.versions), d.providerId, d.ids, d.now);
    if v :| v in t'.versions && t'.versions[v].artifactId == Some(id) {
      assert v in t.versions && t.versions[v].artifactId == Some(id);
    }
    if v :| v in t.versions && t.versions[v].artifactId == Some(id) {
      assert t'.versions[v].artifactId == Some(id);
    }
  }

  /** The upload of a handler that is over, with no call outstanding that would close it. */
  predicate LeftOpen(s: AC.State, h: nat, u: string) {
    && h in s.cache.fills && AT.Over(s.cache.fills[h]) && AP.UploadOf(s.cache.fills[h].trace) == Some(u)
    && u in s.cache.bucket.uploads && !AT.MayStillClose(s.cache.fills[h])
  }

  lemma {:induction false} LeftOpenForGood(w: World, steps: seq<Step>, w': World, h: nat, u: string)
    requires Inv(w) && Leads(w, steps, w') && LeftOpen(w.shared, h, u)
    ensures LeftOpen(w'.shared, h, u)
  {
    if steps != [] {
      var mid := LastStep(w, steps, w');
      LeftOpenForGood(w, Init(steps), mid, h, u);
      StepLeavesOpen(mid, Last(steps), h, u);
    }
  }

  lemma StepLeavesOpen(w: World, step: Step, h: nat, u: string)
    requires Inv(w) && Do(w, step).Some? && LeftOpen(w.shared, h, u)
    ensures LeftOpen(Do(w, step).value.shared, h, u)
  {
    if step.Artifact? {
      AT.OverStays(w.shared, step.a, h);
      AT.StaysOpen(w.shared, step.a, h, u);
    } else {
      StoresKeepCache(w, step);
    }
  }

  lemma StoresKeepCache(w: World, step: Step)
    requires Do(w, step).Some? && !step.Artifact?
    ensures Do(w, step).value.shared.cache == w.shared.cache
  {
    var c, d := OnlyStores(w, step);
  }

  ghost predicate CanBeClosed(w: World, u: string) {
    exists steps, w' :: Leads(w, steps, w') && u !in w'.shared.cache.bucket.uploads
  }

  /** The open upload of a handler that failed or was dropped, whatever the failure, is closed in some
      continuation if and only if a call of that handler is still unaccounted for that closes it: the
      abort after a broken stream, or a completion that lists parts.  So a failed part, a missing tag, a
      rejected empty completion, and a completion that never took effect leave it open for good. */
  lemma UploadClosesIff(prefix: string, w: World, h: nat, u: string)
    requires Reachable(prefix, w) && h in w.shared.cache.fills && AT.Over(w.shared.cache.fills[h])
    requires AP.UploadOf(w.shared.cache.fills[h].trace) == Some(u) && u in w.shared.cache.bucket.uploads
    ensures CanBeClosed(w, u) <==> AT.MayStillClose(w.shared.cache.fills[h])
  {
    ReachableInv(prefix, w);
    if AT.MayStillClose(w.shared.cache.fills[h]) {
      LandingLeads(w, h, u);
    } else {
      forall steps, w' | Leads(w, steps, w') ensures u in w'.shared.cache.bucket.uploads {
        LeftOpenForGood(w, steps, w', h, u);
      }
    }
  }

  lemma LandingLeads(w: World, h: nat, u: string)
    requires Inv(w) && h in w.shared.cache.fills && AT.MayStillClose(w.shared.cache.fills[h])
    requires AP.UploadOf(w.shared.cache.fills[h].trace) == Some(u) && u in w.shared.cache.bucket.uploads
    ensures CanBeClosed(w, u)
  {
    AT.LandingCloses(w.shared, h, u);
    var step := Artifact(AC.Land(h, "", 0));
    assert Init([step]) == [] && [step][..0] == [];
    assert Leads(w, [step], Do(w, step).value);
  }

  /** An abort is unaccounted for only after the stream broke off, a completion only after it ended. */
  lemma OnlyTheseMayClose(prefix: string, w: World, h: nat)
    requires Reachable(prefix, w) && h in w.shared.cache.fills && AT.Over(w.shared.cache.fills[h])
    requires AT.MayStillClose(w.shared.cache.fills[h])
    ensures var f := w.shared.cache.fills[h];
      if f.limbo.value.AbortUpload? then AP.BrokenOff(f.trace) else AP.Ended(f.trace) && !AP.BrokenOff(f.trace)
  {
    ReachableInv(prefix, w);
    AT.LimboTells(w.shared, h);
  }

  // ---------------------------------------------------------------- recovery

  /** In every reachable state, a handler that has read its row can still end in a redirect exactly if it
      is not doomed: dropped or failed itself, its stream broken off, or its stream empty. */
  lemma FailuresLeaveTheWayOpen(prefix: string, w: World, h: nat)
    requires Reachable(prefix, w) && h in w.shared.cache.fills && !w.shared.cache.fills[h].pc.Start?
    requires Rec.Supplied(w.shared, w.shared.cache.fills[h].pc)
    ensures Rec.MayRedirect(w, h) <==> !Rec.Doomed(w.shared.cache.fills[h])
  {
    ReachableInv(prefix, w);
    Rec.MayRedirectIff(w, h);
  }

  /** Whatever failed before, while ids last a new request for a row can be answered, by its own calls
      alone, with a redirect to a genuine object. */
  lemma NewRequestMaySucceed(prefix: string, w: World, h: nat, v: Id) returns (steps: seq<Step>, w': World)
    requires Reachable(prefix, w) && h !in w.shared.cache.fills && v in w.shared.tables.versions
    requires w.shared.tables.versions[v].artifactId.None? ==> w.shared.cache.nextId <= I64_MAX
    ensures Leads(w, [Artifact(AC.Spawn(h, v))] + steps, w') && Rec.OnlyAnswers(steps, h)
    ensures h in w'.shared.cache.fills && w'.shared.cache.fills[h].pc.Redirected?
    ensures AT.Genuine(w'.shared, w'.shared.cache.fills[h].pc.key, v)
  {
    ReachableInv(prefix, w);
    steps, w' := Rec.NewRequestMaySucceed(w, h, v);
    RunKeeps(w, [Artifact(AC.Spawn(h, v))] + steps, w');
    AT.RedirectIsCoherent(w'.shared, h);
  }

  // ---------------------------------------------------------------- independence from upstream

  /** Every call to upstream for row `v` so far, as handler and place in its history, counting those under
      way and those whose handler was dropped meanwhile. */
  function UpstreamCalls(w: World, v: Id): set<(nat, nat)> {
    set h, k | h in w.shared.cache.fills && w.shared.cache.fills[h].versionId == v
               && 0 <= k <= |w.shared.cache.fills[h].trace| && CallsAt(w, h, k) :: (h, k)
  }

  predicate CallsAt(w: World, h: nat, k: nat)
    requires h in w.shared.cache.fills
  {
    AP.UpstreamCall(w.shared.cache.fills[h].pc, w.shared.cache.fills[h].trace, k)
  }

  /** The handlers for row `v` that have read it. */
  function Readers(w: World, v: Id): set<nat> {
    set h | h in w.shared.cache.fills && w.shared.cache.fills[h].versionId == v && w.shared.cache.fills[h].trace != []
  }

  ghost predicate QuietSince(w: World, w': World, v: Id) {
    forall h :: h in w'.shared.cache.fills && w'.shared.cache.fills[h].versionId == v
                && (h in w.shared.cache.fills ==> AT.Quiet(w.shared.cache.fills[h]))
                ==> AT.Quiet(w'.shared.cache.fills[h])
  }

  lemma {:induction false} RunStaysQuiet(w: World, steps: seq<Step>, w': World, v: Id)
    requires Inv(w) && Leads(w, steps, w') && HasArtifact(w, v)
    ensures QuietSince(w, w', v) && HasArtifact(w', v)
  {
    if steps != [] {
      var mid := LastStep(w, steps, w');
      RunStaysQuiet(w, Init(steps), mid, v);
      StepQuietSince(mid, Last(steps), v);
      QuietTransitive(w, mid, w', v);
    }
  }

  predicate HasArtifact(w: World, v: Id) {
    v in w.shared.tables.versions && w.shared.tables.versions[v].artifactId.Some?
  }

  lemma QuietTransitive(w: World, mid: World, w': World, v: Id)
    requires QuietSince(w, mid, v) && QuietSince(mid, w', v)
    requires forall h :: h in mid.shared.cache.fills ==>
               h in w'.shared.cache.fills && w'.shared.cache.fills[h].versionId == mid.shared.cache.fills[h].versionId
    ensures QuietSince(w, w', v)
  {
  }

  lemma StepQuietSince(w: World, step: Step, v: Id)
    requires Inv(w) && Do(w, step).Some? && HasArtifact(w, v)
    ensures var w' := Do(w, step).value;
      && QuietSince(w, w', v) && HasArtifact(w', v)
      && forall h :: h in w.shared.cache.fills ==>
           h in w'.shared.cache.fills && w'.shared.cache.fills[h].versionId == w.shared.cache.fills[h].versionId
  {
    var w' := Do(w, step).value;
    StepIsLater(w, step);
    forall h | h in w.shared.cache.fills
      ensures h in w'.shared.cache.fills && w'.shared.cache.fills[h].versionId == w.shared.cache.fills[h].versionId
    {
      assert AT.FillLater(w.shared.cache.fills[h], w'.shared.cache.fills[h]);
    }
    forall h | h in w'.shared.cache.fills && w'.shared.cache.fills[h].versionId == v
               && (h in w.shared.cache.fills ==> AT.Quiet(w.shared.cache.fills[h]))
      ensures AT.Quiet(w'.shared.cache.fills[h])
    {
      StepStaysQuiet(w, step, h);
    }
  }

  lemma StepStaysQuiet(w: World, step: Step, h: nat)
    requires Inv(w) && Do(w, step).Some? && h in Do(w, step).value.shared.cache.fills
    requires var v := Do(w, step).value.shared.cache.fills[h].versionId;
      && v in w.shared.tables.versions && w.shared.tables.versions[v].artifactId.Some?
    requires h in w.shared.cache.fills
             && w.shared.cache.fills[h].versionId == Do(w, step).value.shared.cache.fills[h].versionId ==>
               AT.Quiet(w.shared.cache.fills[h])
    ensures AT.Quiet(Do(w, step).value.shared.cache.fills[h])
  {
    StepIsLater(w, step);
    if h in w.shared.cache.fills {
      assert AT.FillLater(w.shared.cache.fills[h], Do(w, step).value.shared.cache.fills[h]);
    }
    if step.Artifact? {
      AT.QuietStaysQuiet(w.shared, step.a, h);
    } else {
      StoresKeepCurrent(w, step, 0);
    }
  }

  /** Once a row has an artifact, only handlers that had read the row before ever go upstream for it, each
      of them once at most: upstream may go away, and there are never more downloads than those readers. */
  lemma UpstreamMayGoAway(prefix: string, w: World, steps: seq<Step>, w': World, v: Id)
    requires Reachable(prefix, w) && Leads(w, steps, w')
    requires v in w.shared.tables.versions && w.shared.tables.versions[v].artifactId.Some?
    ensures forall c :: c in UpstreamCalls(w', v) ==> c.0 in Readers(w, v)
    ensures |UpstreamCalls(w', v)| <= |Readers(w, v)|
  {
    Onwards(prefix, w, steps, w');
    RunStaysQuiet(w, steps, w', v);
    forall c | c in UpstreamCalls(w', v) ensures c.0 in Readers(w, v) {
      CallersAreReaders(w, w', v, c.0, c.1);
    }
    forall c, d | c in UpstreamCalls(w', v) && d in UpstreamCalls(w', v) && c.0 == d.0 ensures c == d {
      CalledOnce(w', c.0, c.1, d.1);
    }
    OneEachIsSmaller(UpstreamCalls(w', v), Readers(w, v));
  }

  lemma CallersAreReaders(w: World, w': World, v: Id, h: nat, k: nat)
    requires AC.Inv(w.shared) && AT.Later(w.shared, w'.shared) && QuietSince(w, w', v)
    requires h in w'.shared.cache.fills && w'.shared.cache.fills[h].versionId == v && CallsAt(w', h, k)
    ensures h in Readers(w, v)
  {
    if h in w.shared.cache.fills {
      assert AT.FillLater(w.shared.cache.fills[h], w'.shared.cache.fills[h]);
      if w.shared.cache.fills[h].trace == [] {
        UnreadIsQuiet(w, h);
      }
    }
  }

  lemma CalledOnce(w: World, h: nat, j: nat, k: nat)
    requires AC.Inv(w.shared) && h in w.shared.cache.fills && CallsAt(w, h, j) && CallsAt(w, h, k)
    ensures j == k
  {
    var f := w.shared.cache.fills[h];
    assert AC.FillInv(w.shared.tables, w.shared.cache, h, f);
    AP.OneUpstreamCall(w.shared.cache.prefix, f.versionId, f.trace);
  }

  lemma {:induction false} OneEachIsSmaller(calls: set<(nat, nat)>, callers: set<nat>)
    requires forall c :: c in calls ==> c.0 in callers
    requires forall c, d :: c in calls && d in calls && c.0 == d.0 ==> c == d
    ensures |calls| <= |callers|
  {
    if c :| c in calls {
      OneEachIsSmaller(calls - {c}, callers - {c.0});
    }
  }

  lemma UnreadIsQuiet(w: World, h: nat)
    requires AC.Inv(w.shared) && h in w.shared.cache.fills && w.shared.cache.fills[h].trace == []
    ensures AT.Quiet(w.shared.cache.fills[h])
  {
    assert AC.FillInv(w.shared.tables, w.shared.cache, h, w.shared.cache.fills[h]);
  }

  // ---------------------------------------------------------------- the catalogue

  /** A provider lists exactly the versions that came with a platform in some committed response, from
      whichever instance; and nothing at all if there are none. */
  lemma ListingIsWhatWasOffered(prefix: string, w: World, p: Provider)
    requires Reachable(prefix, w)
    ensures forall n :: n in VersionNames(w.shared.tables, p) <==>
              exists k :: 0 <= k < |w.log| && w.log[k].provider == p && n in NamesWithPlatform(w.log[k].versions)
    ensures ListingOf(w.shared.tables, p).None? <==>
              forall k :: 0 <= k < |w.log| && w.log[k].provider == p ==> NamesWithPlatform(w.log[k].versions) == {}
  {
    ReachableInv(prefix, w);
    var t := w.shared.tables;
    NamesAreTupleNames(t, p);
    forall n | n in VersionNames(t, p)
      ensures exists k :: 0 <= k < |w.log| && w.log[k].provider == p && n in NamesWithPlatform(w.log[k].versions)
    {
      var x :| x in Tuples(t, p) && x.version == n;
      assert Offered(w.log, p, x);
      var k :| 0 <= k < |w.log| && w.log[k].provider == p && x in SetOf(Flatten(w.log[k].versions));
      NamesOfFlatten(w.log[k].versions);
    }
    forall k, n | 0 <= k < |w.log| && w.log[k].provider == p && n in NamesWithPlatform(w.log[k].versions)
      ensures n in VersionNames(t, p)
    {
      NamesOfFlatten(w.log[k].versions);
      var x :| x in SetOf(Flatten(w.log[k].versions)) && x.version == n;
      assert Offered(w.log, p, x);
    }
  }

  ghost predicate AllFitted(log: seq<Inst.Commit>) {
    forall k :: 0 <= k < |log| ==> !TooLong(log[k].provider, log[k].versions)
  }

  lemma StoredFits(t: Tables, c: Inst.Commit, d: Drawn)
    requires Stored(t, c, d).Some?
    ensures !TooLong(c.provider, c.versions)
  {
    ResponseRefusedIff(t, c.provider, c.versions, d.providerId, d.ids, d.now);
  }

  lemma StepKeepsFitted(w: World, step: Step)
    requires Do(w, step).Some? && AllFitted(w.log)
    ensures AllFitted(Do(w, step).value.log)
  {
    if !step.Artifact? {
      var c, d := OnlyStores(w, step);
      if c.Some? {
        StoredFits(w.shared.tables, c.value, d);
      }
    }
  }

  lemma {:induction false} RunKeepsFitted(w: World, steps: seq<Step>, w': World)
    requires Inv(w) && Leads(w, steps, w') && AllFitted(w.log)
    ensures AllFitted(w'.log)
  {
    if steps != [] {
      var mid := LastStep(w, steps, w');
      RunKeepsFitted(w, Init(steps), mid);
      StepKeepsFitted(mid, Last(steps));
    }
  }

  /** Over every run, no store with a text too long for its column ever takes effect, on any instance. */
  lemma OnlyWhatFitsCommits(prefix: string, w: World)
    requires Reachable(prefix, w)
    ensures AllFitted(w.log)
  {
    var steps :| Leads(Mirror.Start(prefix), steps, w);
    StartInv(prefix);
    RunKeepsFitted(Mirror.Start(prefix), steps, w);
  }

  /** So a response with such a text is never answered as a success. */
  lemma OverlongIsNeverServed(prefix: string, w: World, i: nat, h: nat, versions: ProviderVersions)
    requires Reachable(prefix, w) && i in w.instances && h in w.instances[i].handlers
    requires TooLong(w.instances[i].handlers[h].provider, versions)
    ensures Inst.Commit(i, w.instances[i].handlers[h].provider, versions) !in w.log
    ensures w.instances[i].handlers[h].got != Some(Some(RP.RefreshPerformed(Ok(versions))))
  {
    ReachableInv(prefix, w);
    OnlyWhatFitsCommits(prefix, w);
    var x := w.instances[i];
    if x.handlers[h].got == Some(Some(RP.RefreshPerformed(Ok(versions)))) {
      assert InstanceInv(x, w.log, i);
      ServedWasStored(x, w.log, i, h, versions);
    }
  }

  /** Answers from the catalogue never go stale: rows stay under their ids, about the same thing, recorded
      artifacts stay recorded, and no listing ever loses a version. */
  lemma CatalogueIsStable(prefix: string, w: World, steps: seq<Step>, w': World, p: Provider)
    requires Reachable(prefix, w) && Leads(w, steps, w')
    ensures Extends(w.shared.tables, w'.shared.tables) && Constraints(w'.shared.tables)
    ensures VersionNames(w.shared.tables, p) <= VersionNames(w'.shared.tables, p)
    ensures ListingOf(w.shared.tables, p).Some? ==> ListingOf(w'.shared.tables, p).Some?
  {
    Onwards(prefix, w, steps, w');
    ExtendsKeeps(w.shared.tables, w'.shared.tables, p);
  }

  // ---------------------------------------------------------------- index requests

  /** An index served straight from a refresh has already been stored: every later listing, by any
      instance, has each of its versions that came with a platform. */
  lemma DurableReply(prefix: string, w: World, steps: seq<Step>, w': World, i: nat, h: nat, versions: ProviderVersions)
    requires Reachable(prefix, w) && Leads(w, steps, w')
    requires i in w.instances && h in w.instances[i].handlers
    requires w.instances[i].handlers[h].got == Some(Some(RP.RefreshPerformed(Ok(versions))))
    ensures var f := w.instances[i].handlers[h];
      && f.pc == IP.Served(IndexOf(Names(versions)))
      && Inst.Commit(i, f.provider, versions) in w.log
      && SetOf(Flatten(versions)) <= Tuples(w'.shared.tables, f.provider)
      && NamesWithPlatform(versions) <= VersionNames(w'.shared.tables, f.provider)
  {
    Onwards(prefix, w, steps, w');
    var f := w.instances[i].handlers[h];
    ServedWasStored(w.instances[i], w.log, i, h, versions);
    LoggedIsListed(w'.shared.tables, w'.log, Inst.Commit(i, f.provider, versions));
  }

  lemma ServedWasStored(x: Inst.Inst, log: seq<Inst.Commit>, i: nat, h: nat, versions: ProviderVersions)
    requires InstanceInv(x, log, i) && h in x.handlers
    requires x.handlers[h].got == Some(Some(RP.RefreshPerformed(Ok(versions))))
    ensures x.handlers[h].pc == IP.Served(IndexOf(Names(versions)))
    ensures Inst.Commit(i, x.handlers[h].provider, versions) in log
  {
    assert Inst.HandlerInv(x, log, i, x.handlers[h]);
  }

  lemma LoggedIsListed(t: Tables, log: seq<Inst.Commit>, c: Inst.Commit)
    requires CatalogueIsLog(t, log) && c in log
    ensures SetOf(Flatten(c.versions)) <= Tuples(t, c.provider)
    ensures NamesWithPlatform(c.versions) <= VersionNames(t, c.provider)
  {
    var k :| 0 <= k < |log| && log[k] == c;
    forall x | x in SetOf(Flatten(c.versions)) ensures x in Tuples(t, c.provider) {
      assert Offered(log, c.provider, x);
    }
    NamesAreTupleNames(t, c.provider);
    NamesOfFlatten(c.versions);
  }

  /** The handler holds, or has served, an index it read from the catalogue. */
  predicate ReadIndex(f: Inst.Handler) {
    f.pc.Notifying? || (f.pc.Served? && f.got.None?)
  }

  /** An index read from the catalogue lists something, and nothing the catalogue does not know. */
  predicate Backed(t: Tables, f: Inst.Handler) {
    ReadIndex(f) ==>
      && f.pc.index == IndexOf(f.pc.index.versions.Keys) && f.pc.index.versions.Keys != {}
      && f.pc.index.versions.Keys <= VersionNames(t, f.provider)
  }

  predicate AllBacked(t: Tables, x: Inst.Inst) {
    forall h :: h in x.handlers ==> Backed(t, x.handlers[h])
  }

  ghost predicate EveryoneBacked(w: World) {
    forall i :: i in w.instances ==> AllBacked(w.shared.tables, w.instances[i])
  }

  lemma ListingIsBacked(t: Tables, f: Inst.Handler, p: Provider, index: MirrorIndex)
    requires ListingOf(t, p) == Some(index) && f.provider == p && f.pc == IP.Notifying(p, index)
    ensures Backed(t, f)
  {
    NamesAreTupleNames(t, p);
    assert index.versions.Keys == VersionNames(t, p);
  }

  lemma LocalKeepsBacked(t: Tables, x: Inst.Inst, local: Inst.Step, log: seq<Inst.Commit>, i: nat)
    requires AllBacked(t, x) && Inst.AnswerInv(x, log, i) && Honest(t, local) && Inst.Do(x, local, |log|).Some?
    ensures AllBacked(t, Inst.Do(x, local, |log|).value)
  {
    var y := Inst.Do(x, local, |log|).value;
    forall h | h in y.handlers ensures Backed(t, y.handlers[h]) {
      if local.Handle? && local.h == h {
        assert Inst.HandlerInv(x, log, i, x.handlers[h]);
        if local.e.Listed? && y.handlers[h].pc.Notifying? {
          ListingIsBacked(t, y.handlers[h], local.e.provider, y.handlers[h].pc.index);
        }
      }
    }
  }

  lemma GrowthKeepsBacked(t: Tables, u: Tables, x: Inst.Inst)
    requires Constraints(t) && Extends(t, u) && AllBacked(t, x)
    ensures AllBacked(u, x)
  {
    forall h | h in x.handlers ensures Backed(u, x.handlers[h]) {
      ExtendsKeeps(t, u, x.handlers[h].provider);
    }
  }

  lemma StepKeepsBacked(w: World, step: Step)
    requires Inv(w) && Do(w, step).Some? && EveryoneBacked(w)
    ensures EveryoneBacked(Do(w, step).value)
  {
    var w' := Do(w, step).value;
    StepIsLater(w, step);
    forall i | i in w'.instances ensures AllBacked(w'.shared.tables, w'.instances[i]) {
      MovedBacked(w, step, i);
      GrowthKeepsBacked(w.shared.tables, w'.shared.tables, w'.instances[i]);
    }
  }

  lemma MovedBacked(w: World, step: Step, i: nat)
    requires Inv(w) && Do(w, step).Some? && EveryoneBacked(w) && i in Do(w, step).value.instances
    ensures AllBacked(w.shared.tables, Do(w, step).value.instances[i])
  {
    if step.Local? && step.i == i {
      LocalMoves(w, step.i, step.local, step.drawn, step.lost);
      assert InstanceInv(w.instances[i], w.log, i);
      LocalKeepsBacked(w.shared.tables, w.instances[i], step.local, w.log, i);
    } else {
      BystanderBacked(w, step, i);
    }
  }

  lemma BystanderBacked(w: World, step: Step, i: nat)
    requires Do(w, step).Some? && EveryoneBacked(w) && i in Do(w, step).value.instances && !(step.Local? && step.i == i)
    ensures AllBacked(w.shared.tables, Do(w, step).value.instances[i])
  {
    if step.Local? {
      LocalMoves(w, step.i, step.local, step.drawn, step.lost);
    }
  }

  lemma {:induction false} RunKeepsBacked(w: World, steps: seq<Step>, w': World)
    requires Inv(w) && Leads(w, steps, w') && EveryoneBacked(w)
    ensures EveryoneBacked(w')
  {
    if steps != [] {
      var mid := LastStep(w, steps, w');
      RunKeepsBacked(w, Init(steps), mid);
      StepKeepsBacked(mid, Last(steps));
    }
  }

  /** An index once served from the catalogue never goes stale: at any later time, on any instance, each
      version it listed is still listed, and has a version document with at least one package. */
  lemma ServedIndexesStayGood(prefix: string, w: World, steps: seq<Step>, w': World, i: nat, h: nat)
    requires Reachable(prefix, w) && Leads(w, steps, w') && i in w.instances && h in w.instances[i].handlers
    requires w.instances[i].handlers[h].pc.Served? && w.instances[i].handlers[h].got.None?
    ensures var f := w.instances[i].handlers[h]; var names := f.pc.index.versions.Keys;
      && f.pc.index == IndexOf(names) && names != {} && names <= VersionNames(w'.shared.tables, f.provider)
      && forall name, rows, doc, baseUrl ::
           name in names && Downloads(w'.shared.tables, f.provider, name, rows) && Documents(doc, rows, baseUrl)
           ==> doc.archives != map[]
  {
    var past :| Leads(Mirror.Start(prefix), past, w);
    StartInv(prefix);
    RunKeepsBacked(Mirror.Start(prefix), past, w);
    var f := w.instances[i].handlers[h];
    assert Backed(w.shared.tables, f);
    CatalogueIsStable(prefix, w, steps, w', f.provider);
    forall name, rows, doc, baseUrl |
      name in f.pc.index.versions.Keys && Downloads(w'.shared.tables, f.provider, name, rows)
      && Documents(doc, rows, baseUrl)
      ensures doc.archives != map[]
    {
      ListedHasPackages(w'.shared.tables, f.provider, name, rows, doc, baseUrl);
    }
  }

  lemma ListedHasPackages(t: Tables, p: Provider, name: string, rows: seq<Download>, doc: MirrorVersion,
                          baseUrl: string)
    requires name in VersionNames(t, p) && Downloads(t, p, name, rows) && Documents(doc, rows, baseUrl)
    ensures doc.archives != map[]
  {
    var i :| i in t.versions && Joins(t, i, p) && t.versions[i].tuple.version == name;
    assert Download(t.versions[i].tuple.os, t.versions[i].tuple.arch, i) in rows;
    OneEntryEachIff(doc, rows, baseUrl);
  }

  /** Why a request can be refused for a concurrent fetch.  Its own instance has a first recorded success
      for the provider; if the request's read of the catalogue did not fail, then that success committed
      after the read, or its response had no platform at all.  In particular, if every response has a
      platform, the first success committed after the read. */
  lemma ConcurrentFetchExplained(prefix: string, w: World, i: nat, h: nat)
    requires Reachable(prefix, w) && i in w.instances && h in w.instances[i].handlers
    requires var pc := w.instances[i].handlers[h].pc; pc.Refused? && pc.error.ConcurrentProviderFetch?
    ensures var x := w.instances[i]; var f := x.handlers[h];
      && f.pc.error.provider == f.provider
      && f.provider in x.first && x.first[f.provider] < |w.log|
      && w.log[x.first[f.provider]].instance == i && w.log[x.first[f.provider]].provider == f.provider
      && (f.missedAt.Some? ==>
            x.first[f.provider] >= f.missedAt.value || Flatten(w.log[x.first[f.provider]].versions) == [])
  {
    ReachableInv(prefix, w);
    assert InstanceInv(w.instances[i], w.log, i);
    assert Inst.HandlerInv(w.instances[i], w.log, i, w.instances[i].handlers[h]);
    assert Missed(w.log, w.instances[i].handlers[h]);
  }

  // ---------------------------------------------------------------- refreshing

  /** Once an instance has recorded a refresh of a provider, then for the rest of the run the entry stays
      occupied, its time never goes back, and every later refresh, recorded or under way, starts more than
      an interval after that one ended. */
  lemma RefreshesAreSpaced(prefix: string, w: World, steps: seq<Step>, w': World, i: nat, p: Provider, k: nat)
    requires Reachable(prefix, w) && Leads(w, steps, w') && i in w.instances
    requires p in w.instances[i].stamps && k < |w.instances[i].stamps[p]|
    ensures i in w'.instances
    ensures var x, y := w.instances[i], w'.instances[i];
      && p in y.stamps && x.stamps[p] <= y.stamps[p] && y.interval == x.interval
      && (forall m :: k < m < |y.stamps[p]| ==> y.stamps[p][m].start > x.stamps[p][k].end + x.interval)
      && (Inst.Upstream(y.refresher.worker) && y.refresher.worker.msg.provider == p ==>
            y.startedAt > x.stamps[p][k].end + x.interval)
      && p in x.refresher.last && p in y.refresher.last
      && x.stamps[p][k].end <= x.refresher.last[p] <= y.refresher.last[p]
  {
    Onwards(prefix, w, steps, w');
    var x, y := w.instances[i], w'.instances[i];
    assert InstanceInv(x, w.log, i) && InstanceInv(y, w'.log, i);
    IT.RateLimit(x, w.log, i, p, k);
    IT.RateLimit(y, w'.log, i, p, k);
  }

  /** Over every run n recorded refreshes of a provider by an instance span more than n - 1 intervals. */
  lemma RefreshesSpanIntervals(prefix: string, w: World, i: nat, p: Provider, j: nat, k: nat)
    requires Reachable(prefix, w) && i in w.instances
    requires p in w.instances[i].stamps && j < k < |w.instances[i].stamps[p]|
    ensures var x := w.instances[i]; x.stamps[p][k].start - x.stamps[p][j].start > (k - j) * x.interval
  {
    ReachableInv(prefix, w);
    assert InstanceInv(w.instances[i], w.log, i);
    Inst.RefreshesSpan(w.instances[i].interval, w.instances[i].stamps[p], j, k);
  }

  /** Over every run: each contact with upstream for a provider the instance remembers, failed or not, the
      first and the latest included, starts more than an interval after a recorded refresh that is its
      own; and what was noted of contacts is never lost. */
  lemma UpstreamIsRateLimited(prefix: string, w: World, steps: seq<Step>, w': World, i: nat, p: Provider, k: nat)
    requires Reachable(prefix, w) && Leads(w, steps, w') && i in w.instances
    requires p in w.instances[i].contacts && k < |w.instances[i].contacts[p]|
    ensures var x := w.instances[i];
      p in x.stamps && k < |x.stamps[p]| && x.contacts[p][k] > x.stamps[p][k].end + x.interval
    ensures i in w'.instances && p in w'.instances[i].contacts
    ensures w.instances[i].contacts[p] <= w'.instances[i].contacts[p]
  {
    Onwards(prefix, w, steps, w');
    assert InstanceInv(w.instances[i], w.log, i);
    IT.ContactsFollowRefreshes(w.instances[i], w.log, i, p, k);
  }

  /** Over every run k - j contacts in a row take more than k - j intervals. */
  lemma ContactsSpanIntervals(prefix: string, w: World, i: nat, p: Provider, j: nat, k: nat)
    requires Reachable(prefix, w) && i in w.instances
    requires p in w.instances[i].contacts && j < k < |w.instances[i].contacts[p]|
    ensures var x := w.instances[i]; x.contacts[p][k] - x.contacts[p][j] > (k - j) * x.interval
  {
    ReachableInv(prefix, w);
    assert InstanceInv(w.instances[i], w.log, i);
    IT.ContactsAreSpaced(w.instances[i], w.log, i, p, j, k);
  }

  function CountsFor(step: Step, i: nat): nat {
    if step.Local? && step.i == i then IT.Counts(step.local) else 0
  }

  /** How many of the steps are moves of instance `i`'s refresher, its stop included. */
  function Moves(steps: seq<Step>, i: nat): nat {
    if steps == [] then 0 else Moves(Init(steps), i) + CountsFor(Last(steps), i)
  }

  ghost predicate CloserIn(w: World, w': World, i: nat, h: nat, n: nat) {
    i in w.instances && i in w'.instances && IT.Closer(w.instances[i], w'.instances[i], h, n)
  }

  lemma {:induction false} RunBringsCloser(w: World, steps: seq<Step>, w': World, i: nat, h: nat)
    requires Inv(w) && Leads(w, steps, w') && i in w.instances && h in Inst.Channels(w.instances[i].accepted)
    ensures CloserIn(w, w', i, h, Moves(steps, i))
  {
    if steps == [] {
      IT.CloserReflexive(w.instances[i], h);
    } else {
      var mid := LastStep(w, steps, w');
      RunBringsCloser(w, Init(steps), mid, i, h);
      WorldStepBringsCloser(mid, Last(steps), i, h);
      CloserInTransitive(w, mid, w', i, h, Moves(Init(steps), i), CountsFor(Last(steps), i));
    }
  }

  lemma CloserInTransitive(w: World, mid: World, w': World, i: nat, h: nat, m: nat, n: nat)
    requires CloserIn(w, mid, i, h, m) && CloserIn(mid, w', i, h, n)
    ensures CloserIn(w, w', i, h, m + n)
  {
    IT.CloserTransitive(w.instances[i], mid.instances[i], w'.instances[i], h, m, n);
  }

  lemma WorldStepBringsCloser(w: World, step: Step, i: nat, h: nat)
    requires Inv(w) && Do(w, step).Some? && i in w.instances && h in Inst.Channels(w.instances[i].accepted)
    ensures CloserIn(w, Do(w, step).value, i, h, CountsFor(step, i))
  {
    if step.Local? && step.i == i {
      LocalMoves(w, i, step.local, step.drawn, step.lost);
      assert InstanceInv(w.instances[i], w.log, i);
      IT.StepBringsCloser(w.instances[i], step.local, w.log, i, h);
    } else {
      BystanderStays(w, step, i);
      IT.CloserReflexive(w.instances[i], h);
    }
  }

  lemma BystanderStays(w: World, step: Step, i: nat)
    requires Do(w, step).Some? && i in w.instances && !(step.Local? && step.i == i)
    ensures i in Do(w, step).value.instances && Do(w, step).value.instances[i] == w.instances[i]
  {
    if step.Local? {
      LocalMoves(w, step.i, step.local, step.drawn, step.lost);
    }
  }

  /** No waiter is lost: every request dealt with is answered exactly once and in order; while an index
      handler waits without an answer its instance's refresher can move; and once that refresher has made
      60,005 moves of its own, its stop included, the handler has its answer or finds its channel closed,
      whatever else happened. */
  lemma NoWaiterIsLost(prefix: string, w: World, steps: seq<Step>, w': World, i: nat, h: nat)
    requires Reachable(prefix, w) && Leads(w, steps, w') && i in w.instances && h in w.instances[i].handlers
    requires w.instances[i].handlers[h].pc.Waiting?
    ensures i in w'.instances
    ensures var x, y := w.instances[i], w'.instances[i];
      && x.answers == Inst.Channels(x.finished) && x.finished <= x.accepted && NoDuplicates(x.answers)
      && |x.queue| <= Inst.CAPACITY
      && (IT.Settled(x, h) || exists e: RP.Event :: !e.Cancelled? && Inst.Do(x, Inst.Work(e), |w.log|).Some?)
      && (!x.open ==> IT.Settled(x, h))
      && (Moves(steps, i) >= 60_005 ==> IT.Settled(y, h))
  {
    Onwards(prefix, w, steps, w');
    assert InstanceInv(w.instances[i], w.log, i) && InstanceInv(w'.instances[i], w'.log, i);
    assert Inst.WaiterAt(w.instances[i], h);
    IT.AnsweredInOrder(w.instances[i], w.log, i);
    IT.WaitersAreReached(w.instances[i], w.log, i, h);
    RunBringsCloser(w, steps, w', i, h);
    IT.WaitersAreReached(w'.instances[i], w'.log, i, h);
  }

  /** A request is told that the refresher's channel is broken only if that refresher has stopped. */
  lemma {:induction false} BrokenOnlyAfterStop(w: World, steps: seq<Step>, w': World, i: nat, h: nat)
    requires Inv(w) && Leads(w, steps, w') && w.instances == map[] && i in w'.instances
    requires SaysBroken(w'.instances[i], h)
    ensures !w'.instances[i].open
  {
    if steps != [] {
      var mid := LastStep(w, steps, w');
      if i in mid.instances && SaysBroken(mid.instances[i], h) {
        BrokenOnlyAfterStop(w, Init(steps), mid, i, h);
        StepIsLater(mid, Last(steps));
        assert IT.Later(mid.instances[i], w'.instances[i]);
      } else {
        BrokenNow(mid, Last(steps), i, h);
      }
    }
  }

  predicate SaysBroken(x: Inst.Inst, h: nat) {
    h in x.handlers && x.handlers[h].pc == IP.Refused(IP.BrokenRefresherChannel)
  }

  lemma BrokenNow(w: World, step: Step, i: nat, h: nat)
    requires Inv(w) && Do(w, step).Some? && i in Do(w, step).value.instances
    requires SaysBroken(Do(w, step).value.instances[i], h)
    requires i in w.instances ==> !SaysBroken(w.instances[i], h)
    ensures !Do(w, step).value.instances[i].open
  {
    NewsIsLocal(w, step, i, h);
    assert InstanceInv(w.instances[i], w.log, i);
    BrokenLocally(w.instances[i], step.local, |w.log|, h);
  }

  lemma NewsIsLocal(w: World, step: Step, i: nat, h: nat)
    requires Do(w, step).Some? && i in Do(w, step).value.instances && SaysBroken(Do(w, step).value.instances[i], h)
    requires i in w.instances ==> !SaysBroken(w.instances[i], h)
    ensures step.Local? && step.i == i && i in w.instances && Inst.Do(w.instances[i], step.local, |w.log|).Some?
    ensures Do(w, step).value.instances[i] == Inst.Do(w.instances[i], step.local, |w.log|).value
  {
    if step.Local? {
      LocalMoves(w, step.i, step.local, step.drawn, step.lost);
    }
  }

  lemma BrokenLocally(x: Inst.Inst, local: Inst.Step, logged: nat, h: nat)
    requires Inst.FifoInv(x) && Inst.SlotInv(x) && Inst.Do(x, local, logged).Some?
    requires SaysBroken(Inst.Do(x, local, logged).value, h) && !SaysBroken(x, h)
    ensures !Inst.Do(x, local, logged).value.open
  {
    if local.Handle? && local.h == h && local.e.Answered? {
      assert Inst.SlotTells(x, h);
    }
  }

  // ---------------------------------------------------------------- end to end

  /** From document to object.  Take a version document built at some time from whatever order the rows
      came in.  At any later time each of its entries leads, by printing and reading back the address, to
      a row that is still there and still about that provider and version, with the platform that gave
      the entry its name; and any redirect ever given for that row names a complete object holding the
      whole of an upstream stream fetched for exactly that platform. */
  lemma DocumentsLeadToGenuineObjects(prefix: string, w: World, steps: seq<Step>, w': World, p: Provider,
                                      version: string, rows: seq<Download>, doc: MirrorVersion, baseUrl: string,
                                      name: string)
    returns (id: Id)
    requires Reachable(prefix, w) && Leads(w, steps, w')
    requires Downloads(w.shared.tables, p, version, rows) && Documents(doc, rows, baseUrl) && name in doc.archives
    ensures var url := doc.archives[name].url;
      && baseUrl <= url && |url| >= |baseUrl| + 10 && url[|baseUrl|..|baseUrl| + 10] == "artifacts/"
      && ParseI64(url[|baseUrl| + 10..]) == Some(id) && ParseI64(LastSegment(url)) == Some(id)
    ensures Joins(w'.shared.tables, id, p)
    ensures var x := w'.shared.tables.versions[id].tuple;
      && x.version == version && Name(x.os, x.arch) == name
      && forall h :: h in w'.shared.cache.fills && w'.shared.cache.fills[h].versionId == id
                     && w'.shared.cache.fills[h].pc.Redirected? ==>
           AT.Genuine(w'.shared, w'.shared.cache.fills[h].pc.key, id) && AC.About(w'.shared.tables, id, p, x)
  {
    Onwards(prefix, w, steps, w');
    id := EntryLeadsToRow(w.shared.tables, p, version, rows, doc, baseUrl, name);
    forall h | h in w'.shared.cache.fills && w'.shared.cache.fills[h].versionId == id
               && w'.shared.cache.fills[h].pc.Redirected?
      ensures AT.Genuine(w'.shared, w'.shared.cache.fills[h].pc.key, id)
    {
      AT.RedirectIsCoherent(w'.shared, h);
    }
  }
}
