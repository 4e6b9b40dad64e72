/** The whole mirror: any number of instances, each with its index handlers and refresher, and any
    number of artifact handlers, over one catalogue and one bucket. */
module Mirror {
  import opened Basics
  import opened Decimal
  import opened Catalogue
  import opened Index
  import AC = ArtifactCache
  import AT = ArtifactTheorems
  import Inst = Instance
  import IT = InstanceTheorems
  import RP = RefreshProgram

  /** `log` lists the stores that took effect, in order; `adrift` those whose acknowledgement was lost and
      that may still take effect. */
  datatype World = World(
    shared: AC.State,
    instances: map<nat, Inst.Inst>,
    log: seq<Inst.Commit>,
    adrift: seq<Inst.Commit>)

  /** What the database draws for one store. */
  datatype Drawn = Drawn(providerId: Id, ids: seq<Id>, now: Time)

  datatype Step =
    | Artifact(a: AC.Step)
    | Boot(i: nat, interval: nat, now: Time)
    | Local(i: nat, local: Inst.Step, drawn: Drawn, lost: bool)
    | LandStore(k: nat, drawn: Drawn)
    | LoseStore(k: nat)

  function Start(prefix: string): World {
    World(AC.State(EMPTY, AC.Initial(prefix)), map[], [], [])
  }

  predicate Fresh(t: Tables, versions: ProviderVersions, d: Drawn) {
    UniqueProvider(t) && d.providerId !in t.providers && |d.ids| == |Flatten(versions)| && FreshIds(t, d.ids)
  }

  /** The catalogue after a store commits, if it can commit. */
  function Stored(t: Tables, c: Inst.Commit, d: Drawn): Option<Tables> {
    if !Fresh(t, c.versions, d) then None
    else match Store(t, c.provider, Flatten(c.versions), d.providerId, d.ids, d.now)
      case Err(_) => None
      case Ok(inserted) => Some(inserted.tables)
  }

  /** A listing that succeeds is what the catalogue holds. */
  predicate Honest(t: Tables, local: Inst.Step) {
    local.Handle? && local.e.Listed? && local.e.listing.Ok? ==> local.e.listing.value == ListingOf(t, local.e.provider)
  }

  function Without(s: seq<Inst.Commit>, k: nat): seq<Inst.Commit>
    requires k < |s|
  {
    s[..k] + s[k + 1..]
  }

  function TakeEffect(w: World, c: Inst.Commit, d: Drawn): Option<World> {
    match Stored(w.shared.tables, c, d)
    case None => None
    case Some(t) => Some(w.(shared := AC.State(t, w.shared.cache), log := w.log + [c]))
  }

  function DoLocal(w: World, i: nat, local: Inst.Step, d: Drawn, lost: bool): Option<World> {
    if i !in w.instances || !Honest(w.shared.tables, local) then None
    else match Inst.Do(w.instances[i], local, |w.log|)
      case None => None
      case Some(x) =>
        var w' := w.(instances := w.instances[i := x]);
        if local.Work? && local.w.StoreAnswered? then
          var c := Inst.Commit(i, local.w.provider, local.w.versions);
          if local.w.ok then TakeEffect(w', c, d)
          else Some(if lost then w'.(adrift := w.adrift + [c]) else w')
        else Some(w')
  }

  /** One step of the mirror, or nothing if the step is not possible. */
  function Do(w: World, step: Step): Option<World> {
    match step
    case Artifact(a) =>
      (match AC.Do(w.shared, a) case None => None case Some(s) => Some(w.(shared := s)))
    case Boot(i, interval, now) =>
      if i in w.instances then None else Some(w.(instances := w.instances[i := Inst.Booted(interval, now)]))
    case Local(i, local, drawn, lost) => DoLocal(w, i, local, drawn, lost)
    case LandStore(k, drawn) =>
      if k >= |w.adrift| then None else TakeEffect(w.(adrift := Without(w.adrift, k)), w.adrift[k], drawn)
    case LoseStore(k) =>
      if k >= |w.adrift| then None else Some(w.(adrift := Without(w.adrift, k)))
  }

  // ---------------------------------------------------------------- the invariant

  /** Some committed response offered this tuple for this provider. */
  ghost predicate Offered(log: seq<Inst.Commit>, p: Provider, x: Tuple) {
    exists k :: 0 <= k < |log| && log[k].provider == p && x in SetOf(Flatten(log[k].versions))
  }

  /** The catalogue knows exactly what committed responses offered. */
  ghost predicate CatalogueIsLog(t: Tables, log: seq<Inst.Commit>) {
    forall p, x :: x in Tuples(t, p) <==> Offered(log, p, x)
  }

  /** A read that found nothing came before every committed response with something to store. */
  ghost predicate Missed(log: seq<Inst.Commit>, f: Inst.Handler) {
    f.missedAt.Some? ==>
      forall k :: 0 <= k < f.missedAt.value && k < |log| && log[k].provider == f.provider ==>
        Flatten(log[k].versions) == []
  }

  ghost predicate MissesExplained(x: Inst.Inst, log: seq<Inst.Commit>) {
    forall h :: h in x.handlers ==> Missed(log, x.handlers[h])
  }

  ghost predicate InstanceInv(x: Inst.Inst, log: seq<Inst.Commit>, i: nat) {
    Inst.Inv(x, log, i) && MissesExplained(x, log)
  }

  ghost predicate InstancesInv(xs: map<nat, Inst.Inst>, log: seq<Inst.Commit>) {
    forall i :: i in xs ==> InstanceInv(xs[i], log, i)
  }

  ghost predicate Inv(w: World) {
    && AC.Inv(w.shared)
    && CatalogueIsLog(w.shared.tables, w.log)
    && InstancesInv(w.instances, w.log)
  }

  lemma StartInv(prefix: string)
    ensures Inv(Start(prefix))
  {
    AC.InitialInv(prefix);
  }

  lemma {:induction false} OfferedSnoc(log: seq<Inst.Commit>, c: Inst.Commit, p: Provider, x: Tuple)
    ensures Offered(log + [c], p, x) <==> Offered(log, p, x) || (c.provider == p && x in SetOf(Flatten(c.versions)))
  {
    var log' := log + [c];
    if Offered(log', p, x) {
      var k :| 0 <= k < |log'| && log'[k].provider == p && x in SetOf(Flatten(log'[k].versions));
      assert k < |log| ==> log[k] == log'[k];
    }
    if Offered(log, p, x) {
      var k :| 0 <= k < |log| && log[k].provider == p && x in SetOf(Flatten(log[k].versions));
      assert log'[k] == log[k];
    }
    assert log'[|log|] == c;
  }

  /** A store that takes effect leaves the catalogue equal to the log, and the artifacts undisturbed. */
  lemma StoreKeepsCatalogue(s: AC.State, log: seq<Inst.Commit>, c: Inst.Commit, d: Drawn)
    requires AC.Inv(s) && CatalogueIsLog(s.tables, log) && Stored(s.tables, c, d).Some?
    ensures var t := Stored(s.tables, c, d).value;
      AC.Inv(AC.State(t, s.cache)) && AT.Later(s, AC.State(t, s.cache)) && CatalogueIsLog(t, log + [c])
  {
    var t := Stored(s.tables, c, d).value;
    var xs := Flatten(c.versions);
    StoreRows(s.tables, c.provider, xs, d.providerId, d.ids, d.now);
    AT.GrowthKeepsInv(s, t);
    StoreIsUnion(s.tables, c.provider, xs, d.providerId, d.ids, d.now);
    forall p, x ensures x in Tuples(t, p) <==> Offered(log + [c], p, x) {
      OfferedSnoc(log, c, p, x);
      assert p != c.provider ==> Tuples(t, p) == Tuples(s.tables, p);
    }
  }

  lemma ArtifactKeepsCatalogue(s: AC.State, a: AC.Step, log: seq<Inst.Commit>)
    requires AC.Inv(s) && CatalogueIsLog(s.tables, log) && AC.Do(s, a).Some?
    ensures CatalogueIsLog(AC.Do(s, a).value.tables, log)
  {
    var s' := AC.Do(s, a).value;
    if s'.tables != s.tables {
      AT.OnlyUpdatesTouchRows(s, a);
      var f := s.cache.fills[a.h];
      var id := AC.Pending(s.cache.prefix, f).value.artifact.artifactId;
      RecordKeepsViews(s.tables, f.versionId, id, a.now);
      forall p, x ensures x in Tuples(s'.tables, p) <==> Offered(log, p, x) {
        assert Tuples(s'.tables, p) == Tuples(s.tables, p);
      }
    }
  }

  lemma LogGrowthKeepsMisses(x: Inst.Inst, log: seq<Inst.Commit>, log': seq<Inst.Commit>, i: nat)
    requires MissesExplained(x, log) && log <= log' && Inst.AnswerInv(x, log, i)
    ensures MissesExplained(x, log')
  {
    forall h | h in x.handlers ensures Missed(log', x.handlers[h]) {
      assert Missed(log, x.handlers[h]) && Inst.HandlerInv(x, log, i, x.handlers[h]);
    }
  }

  /** A local step explains its misses: only a listing creates one, and a listing that finds nothing
      finds that every committed response so far had nothing to store. */
  lemma LocalKeepsMisses(t: Tables, log: seq<Inst.Commit>, x: Inst.Inst, i: nat, local: Inst.Step)
    requires CatalogueIsLog(t, log) && MissesExplained(x, log) && Inst.AnswerInv(x, log, i)
    requires Honest(t, local) && Inst.Do(x, local, |log|).Some?
    ensures MissesExplained(Inst.Do(x, local, |log|).value, log)
  {
    var y := Inst.Do(x, local, |log|).value;
    forall h | h in y.handlers ensures Missed(log, y.handlers[h]) {
      if local.Handle? && local.h == h && local.e.Listed? && local.e.listing == Ok(None) {
        ListingMisses(t, log, x, i, local);
      } else if h in x.handlers {
        assert Missed(log, x.handlers[h]);
        MissesMoveOnlyByListing(x, local, |log|, h);
      }
    }
  }

  lemma ListingMisses(t: Tables, log: seq<Inst.Commit>, x: Inst.Inst, i: nat, local: Inst.Step)
    requires CatalogueIsLog(t, log) && Inst.AnswerInv(x, log, i)
    requires Honest(t, local) && Inst.Do(x, local, |log|).Some?
    requires local.Handle? && local.e.Listed? && local.e.listing == Ok(None)
    ensures Missed(log, Inst.Do(x, local, |log|).value.handlers[local.h])
  {
    assert Inst.HandlerInv(x, log, i, x.handlers[local.h]);
    NothingListed(t, log, local.e.provider);
  }

  lemma MissesMoveOnlyByListing(x: Inst.Inst, local: Inst.Step, logged: nat, h: nat)
    requires Inst.Do(x, local, logged).Some? && h in x.handlers
    requires !(local.Handle? && local.h == h && local.e.Listed? && local.e.listing == Ok(None))
    ensures var f := Inst.Do(x, local, logged).value.handlers;
      && h in f && f[h].provider == x.handlers[h].provider
      && (f[h].missedAt == x.handlers[h].missedAt || f[h].missedAt.None?)
  {
  }

  lemma NothingListed(t: Tables, log: seq<Inst.Commit>, p: Provider)
    requires CatalogueIsLog(t, log) && ListingOf(t, p).None?
    ensures forall k :: 0 <= k < |log| && log[k].provider == p ==> Flatten(log[k].versions) == []
  {
    NamesAreTupleNames(t, p);
    forall k | 0 <= k < |log| && log[k].provider == p ensures Flatten(log[k].versions) == [] {
      var xs := Flatten(log[k].versions);
      assert xs != [] ==> xs[0] in SetOf(xs) && Offered(log, p, xs[0]);
    }
  }

  lemma LogGrowthKeepsInstance(x: Inst.Inst, log: seq<Inst.Commit>, log': seq<Inst.Commit>, i: nat)
    requires InstanceInv(x, log, i) && log <= log'
    ensures InstanceInv(x, log', i)
  {
    Inst.LogGrowthKeepsInv(x, log, log', i);
    LogGrowthKeepsMisses(x, log, log', i);
  }

  /** One instance moves; the others only see the log grow. */
  lemma InstanceReplaced(xs: map<nat, Inst.Inst>, i: nat, y: Inst.Inst, log: seq<Inst.Commit>, log': seq<Inst.Commit>)
    requires InstancesInv(xs, log) && log <= log' && InstanceInv(y, log', i)
    ensures InstancesInv(xs[i := y], log')
  {
    var ys := xs[i := y];
    forall j | j in ys ensures InstanceInv(ys[j], log', j) {
      if j != i {
        LogGrowthKeepsInstance(xs[j], log, log', j);
      }
    }
  }

  lemma TakeEffectKeepsInv(w: World, c: Inst.Commit, d: Drawn)
    requires Inv(w) && TakeEffect(w, c, d).Some?
    ensures Inv(TakeEffect(w, c, d).value)
  {
    var w' := TakeEffect(w, c, d).value;
    StoreKeepsCatalogue(w.shared, w.log, c, d);
    forall i | i in w'.instances ensures InstanceInv(w'.instances[i], w'.log, i) {
      LogGrowthKeepsInstance(w.instances[i], w.log, w'.log, i);
    }
  }

  lemma WorkKeepsHandlers(x: Inst.Inst, w: RP.Event, logged: nat)
    requires Inst.Do(x, Inst.Work(w), logged).Some?
    ensures Inst.Do(x, Inst.Work(w), logged).value.handlers == x.handlers
  {
  }

  /** An instance that is acknowledged a store, seen against the log with that store in it. */
  lemma AcknowledgedInstance(x: Inst.Inst, w: RP.Event, log: seq<Inst.Commit>, i: nat)
    requires InstanceInv(x, log, i)
    requires Inst.Do(x, Inst.Work(w), |log|).Some? && w.StoreAnswered? && w.ok
    ensures InstanceInv(Inst.Do(x, Inst.Work(w), |log|).value, log + [Inst.Commit(i, w.provider, w.versions)], i)
  {
    var log' := log + [Inst.Commit(i, w.provider, w.versions)];
    Inst.StepInv(x, Inst.Work(w), log, i);
    WorkKeepsHandlers(x, w, |log|);
    LogGrowthKeepsMisses(x, log, log', i);
  }

  /** A store acknowledged to instance `i`: its own step and the commit are one. */
  lemma AcknowledgedStoreKeepsInv(w: World, i: nat, local: Inst.Step, d: Drawn, lost: bool)
    requires Inv(w) && DoLocal(w, i, local, d, lost).Some? && local.Work? && local.w.StoreAnswered? && local.w.ok
    ensures Inv(DoLocal(w, i, local, d, lost).value)
  {
    var w' := DoLocal(w, i, local, d, lost).value;
    StoreKeepsCatalogue(w.shared, w.log, Inst.Commit(i, local.w.provider, local.w.versions), d);
    AcknowledgedInstance(w.instances[i], local.w, w.log, i);
    InstanceReplaced(w.instances, i, w'.instances[i], w.log, w'.log);
  }

  lemma LocalInstance(t: Tables, x: Inst.Inst, local: Inst.Step, log: seq<Inst.Commit>, i: nat)
    requires InstanceInv(x, log, i) && CatalogueIsLog(t, log)
    requires Honest(t, local) && Inst.Do(x, local, |log|).Some?
    requires !(local.Work? && local.w.StoreAnswered? && local.w.ok)
    ensures InstanceInv(Inst.Do(x, local, |log|).value, log, i)
  {
    Inst.StepInv(x, local, log, i);
    LocalKeepsMisses(t, log, x, i, local);
  }

  lemma LocalKeepsInv(w: World, i: nat, local: Inst.Step, d: Drawn, lost: bool)
    requires Inv(w) && DoLocal(w, i, local, d, lost).Some?
    requires !(local.Work? && local.w.StoreAnswered? && local.w.ok)
    ensures Inv(DoLocal(w, i, local, d, lost).value)
  {
    LocalInstance(w.shared.tables, w.instances[i], local, w.log, i);
    InstanceReplaced(w.instances, i, Inst.Do(w.instances[i], local, |w.log|).value, w.log, w.log);
  }

  /** Every step of the mirror keeps the invariant. */
  lemma StepInv(w: World, step: Step)
    requires Inv(w) && Do(w, step).Some?
    ensures Inv(Do(w, step).value)
  {
    match step
    case Artifact(a) =>
      AC.StepInv(w.shared, a);
      ArtifactKeepsCatalogue(w.shared, a, w.log);
    case Boot(i, interval, now) => Inst.BootedInv(interval, now, w.log, i);
    case Local(i, local, drawn, lost) =>
      if local.Work? && local.w.StoreAnswered? && local.w.ok {
        AcknowledgedStoreKeepsInv(w, i, local, drawn, lost);
      } else {
        LocalKeepsInv(w, i, local, drawn, lost);
      }
    case LandStore(k, drawn) =>
      TakeEffectKeepsInv(w.(adrift := Without(w.adrift, k)), w.adrift[k], drawn);
    case LoseStore(k) =>
  }

  // ---------------------------------------------------------------- runs

  /** The state after a sequence of steps, if they are all possible in turn. */
  function Exec(w: World, steps: seq<Step>): Option<World> {
    if steps == [] then Some(w)
    else match Exec(w, Init(steps)) case None => None case Some(mid) => Do(mid, Last(steps))
  }

  ghost predicate Leads(w: World, steps: seq<Step>, w': World) {
    Exec(w, steps) == Some(w')
  }

  lemma {:induction false} ExecAppend(w: World, a: seq<Step>, b: seq<Step>)
    ensures Exec(w, a + b) == match Exec(w, a) case None => None case Some(mid) => Exec(mid, b)
  {
    if b == [] {
      assert a + b == a;
    } else {
      assert (a + b)[..|a + b| - 1] == a + b[..|b| - 1];
      ExecAppend(w, a, b[..|b| - 1]);
    }
  }

  /** What later states of the mirror keep of earlier ones. */
  ghost predicate Later(w: World, w': World) {
    && AT.Later(w.shared, w'.shared) && w.log <= w'.log
    && forall i :: i in w.instances ==> i in w'.instances && IT.Later(w.instances[i], w'.instances[i])
  }

  lemma SharedUnchanged(s: AC.State)
    requires AC.Inv(s)
    ensures AT.Later(s, s)
  {
  }

  lemma InstanceUnchanged(x: Inst.Inst)
    ensures IT.Later(x, x)
  {
  }

  lemma LocalSharedLater(w: World, i: nat, local: Inst.Step, d: Drawn, lost: bool)
    requires Inv(w) && DoLocal(w, i, local, d, lost).Some?
    ensures var w' := DoLocal(w, i, local, d, lost).value; AT.Later(w.shared, w'.shared) && w.log <= w'.log
  {
    if local.Work? && local.w.StoreAnswered? && local.w.ok {
      StoreKeepsCatalogue(w.shared, w.log, Inst.Commit(i, local.w.provider, local.w.versions), d);
    } else {
      SharedUnchanged(w.shared);
    }
  }

  lemma InstancesLater(xs: map<nat, Inst.Inst>, i: nat, local: Inst.Step, log: seq<Inst.Commit>)
    requires InstancesInv(xs, log) && i in xs && Inst.Do(xs[i], local, |log|).Some?
    ensures forall j :: j in xs ==> IT.Later(xs[j], xs[i := Inst.Do(xs[i], local, |log|).value][j])
  {
    assert InstanceInv(xs[i], log, i);
    IT.StepIsLater(xs[i], local, |log|);
    forall j | j in xs ensures IT.Later(xs[j], xs[i := Inst.Do(xs[i], local, |log|).value][j]) {
      InstanceUnchanged(xs[j]);
    }
  }

  lemma LocalIsLater(w: World, i: nat, local: Inst.Step, d: Drawn, lost: bool)
    requires Inv(w) && DoLocal(w, i, local, d, lost).Some?
    ensures Later(w, DoLocal(w, i, local, d, lost).value)
  {
    LocalSharedLater(w, i, local, d, lost);
    LocalMoves(w, i, local, d, lost);
    InstancesLater(w.instances, i, local, w.log);
  }

  lemma LocalMoves(w: World, i: nat, local: Inst.Step, d: Drawn, lost: bool)
    requires DoLocal(w, i, local, d, lost).Some?
    ensures i in w.instances && Inst.Do(w.instances[i], local, |w.log|).Some?
    ensures DoLocal(w, i, local, d, lost).value.instances
            == w.instances[i := Inst.Do(w.instances[i], local, |w.log|).value]
  {
  }

  lemma SharedIsLater(w: World, step: Step)
    requires Inv(w) && Do(w, step).Some? && !step.Local?
    ensures AT.Later(w.shared, Do(w, step).value.shared)
  {
    match step
    case Artifact(a) => AT.StepIsLater(w.shared, a);
    case LandStore(k, drawn) => StoreKeepsCatalogue(w.shared, w.log, w.adrift[k], drawn);
    case _ => SharedUnchanged(w.shared);
  }

  lemma StepIsLater(w: World, step: Step)
    requires Inv(w) && Do(w, step).Some?
    ensures Later(w, Do(w, step).value)
  {
    if step.Local? {
      LocalIsLater(w, step.i, step.local, step.drawn, step.lost);
    } else {
      SharedIsLater(w, step);
      BystandersLater(w, step);
    }
  }

  lemma BystandersLater(w: World, step: Step)
    requires Do(w, step).Some? && !step.Local?
    ensures var w' := Do(w, step).value;
      w.log <= w'.log && forall i :: i in w.instances ==> i in w'.instances && IT.Later(w.instances[i], w'.instances[i])
  {
    forall i | i in w.instances ensures IT.Later(w.instances[i], w.instances[i]) {
      InstanceUnchanged(w.instances[i]);
    }
  }

  lemma LaterTransitive(a: World, b: World, c: World)
    requires Later(a, b) && Later(b, c)
    ensures Later(a, c)
  {
    AT.LaterTransitive(a.shared, b.shared, c.shared);
    forall i | i in a.instances ensures i in c.instances && IT.Later(a.instances[i], c.instances[i]) {
      IT.LaterTransitive(a.instances[i], b.instances[i], c.instances[i]);
    }
  }

  lemma Unchanged(w: World)
    requires Inv(w)
    ensures Later(w, w)
  {
    SharedUnchanged(w.shared);
    forall i | i in w.instances ensures IT.Later(w.instances[i], w.instances[i]) {
      InstanceUnchanged(w.instances[i]);
    }
  }

  /** Along every run, whatever interleaves and whatever fails, the invariant holds and nothing known is lost. */
  lemma {:induction false} RunKeeps(w: World, steps: seq<Step>, w': World)
    requires Inv(w) && Leads(w, steps, w')
    ensures Inv(w') && Later(w, w')
  {
    if steps == [] {
      Unchanged(w);
    } else {
      var mid := Exec(w, Init(steps)).value;
      RunKeeps(w, Init(steps), mid);
      StepInv(mid, Last(steps));
      StepIsLater(mid, Last(steps));
      LaterTransitive(w, mid, w');
    }
  }

  /** A run ends with a step from a state that the run before it leads to. */
  lemma LastStep(w: World, steps: seq<Step>, w': World) returns (mid: World)
    requires Inv(w) && Leads(w, steps, w') && steps != []
    ensures Leads(w, Init(steps), mid) && Inv(mid) && Do(mid, Last(steps)) == Some(w')
  {
    mid := Exec(w, Init(steps)).value;
    RunKeeps(w, Init(steps), mid);
  }
}
