/** Any number of artifact handlers, on any number of instances, sharing one catalogue and one bucket.
    Each step lets one handler's awaited call be answered, drops a handler, or lets a call whose answer
    was lost take effect late. */
module ArtifactCache {
  import opened Basics
  import opened Decimal
  import opened Catalogue
  import opened ArtifactProgram

  datatype Part = Part(body: Bytes, etag: string)

  datatype Upload = Upload(key: string, parts: map<nat, Part>)

  /** A completed object, and the handler whose upload made it. */
  datatype Object = Object(bytes: Bytes, maker: nat)

  datatype Bucket = Bucket(uploads: map<string, Upload>, issued: set<string>, objects: map<string, Object>)

  /** A call that changes what others can see. */
  datatype Call =
    | PutPart(uploadId: string, number: nat, body: Bytes)
    | AbortUpload(uploadId: string)
    | CompleteUpload(uploadId: string, key: string, parts: seq<CompletedPart>)
    | UpdateRow(artifact: Artifact)

  /** One handler: what it was asked for, its history, where it stands, whether it still runs, and a
      call of its that was sent, never answered with success, and may still take effect. */
  datatype Fill = Fill(versionId: Id, trace: seq<Event>, pc: Pc, live: bool, limbo: Option<Call>)

  datatype Cache = Cache(prefix: string, nextId: int, bucket: Bucket, fills: map<nat, Fill>, recorded: set<Id>)

  datatype State = State(tables: Tables, cache: Cache)

  datatype Step =
    | Spawn(h: nat, versionId: Id)
    | Answer(h: nat, e: Event, now: Time)
    | Drop(h: nat)
    | Land(h: nat, etag: string, now: Time)
    | Forget(h: nat)
    | SkipIds(next: int)

  function Initial(prefix: string): Cache {
    Cache(prefix, 1, Bucket(map[], {}, map[]), map[], {})
  }

  /** The row of a version joined to its provider. */
  function Lookup(t: Tables, v: Id): Option<Details> {
    if v in t.versions && t.versions[v].providerId in t.providers
    then Some(Details(v, t.providers[t.versions[v].providerId].provider, t.versions[v].tuple, t.versions[v].artifactId))
    else None
  }

  /** The effectful call a control point awaits. */
  function Outstanding(prefix: string, pc: Pc): Option<Call> {
    match pc
    case Uploading(_, u, buffer, parts, _) => Some(PutPart(u, |parts| + 1, buffer))
    case Aborting(_, u) => Some(AbortUpload(u))
    case Completing(a, u, parts) => Some(CompleteUpload(u, S3Key(prefix, a.artifactId), parts))
    case Recording(a) => Some(UpdateRow(a))
    case _ => None
  }

  predicate Succeeded(e: Event) {
    match e
    case PartUploaded(_, _, _, _, part) => part.Stored?
    case UploadAborted(_, _, ok) => ok
    case UploadCompleted(_, _, _, ok) => ok
    case RowUpdated(_, _, ok) => ok
    case _ => false
  }

  predicate Listed(stored: map<nat, Part>, parts: seq<CompletedPart>) {
    forall i :: 0 <= i < |parts| ==> parts[i].number in stored && stored[parts[i].number].etag == parts[i].etag
  }

  /** What completing an upload makes of the listed parts; an empty or unknown list is rejected. */
  function Assemble(stored: map<nat, Part>, parts: seq<CompletedPart>): Option<Bytes> {
    if parts == [] || !Listed(stored, parts) then None
    else Some(Concat(seq(|parts|, i requires 0 <= i < |parts| => stored[parts[i].number].body)))
  }

  /** What a call does when it is carried out, or nothing if the service rejects it. */
  function Effect(s: State, h: nat, call: Call, etag: string, now: Time): Option<State> {
    var b := s.cache.bucket;
    match call
    case PutPart(u, number, body) =>
      if u !in b.uploads then None
      else
        var upload := b.uploads[u].(parts := b.uploads[u].parts[number := Part(body, etag)]);
        Some(s.(cache := s.cache.(bucket := b.(uploads := b.uploads[u := upload]))))
    case AbortUpload(u) =>
      Some(s.(cache := s.cache.(bucket := b.(uploads := b.uploads - {u}))))
    case CompleteUpload(u, key, parts) =>
      if u !in b.uploads || b.uploads[u].key != key then None
      else (match Assemble(b.uploads[u].parts, parts)
        case None => None
        case Some(bytes) =>
          var b' := b.(uploads := b.uploads - {u}, objects := b.objects[key := Object(bytes, h)]);
          Some(s.(cache := s.cache.(bucket := b'))))
    case UpdateRow(a) =>
      match Record(s.tables, a.versionId, a.artifactId, now)
      case Err(_) => None
      case Ok(t) => Some(State(t, s.cache.(recorded := s.cache.recorded + {a.artifactId})))
  }

  /** The services never answer what they could not have seen. */
  predicate Honest(s: State, e: Event) {
    match e
    case RowRead(v, row) => row.Ok? ==> row.value == Lookup(s.tables, v)
    case IdAllocated(id) => id.Some? ==> id.value == s.cache.nextId
    case UploadCreated(_, created) => created.Created? ==> created.uploadId !in s.cache.bucket.issued
    case _ => true
  }

  /** Bookkeeping of answers that hand out something fresh. */
  function HandOut(c: Cache, e: Event): Cache {
    match e
    case IdAllocated(Some(id)) => c.(nextId := id + 1)
    case UploadCreated(key, Created(u)) =>
      c.(bucket := c.bucket.(uploads := c.bucket.uploads[u := Upload(key, map[])], issued := c.bucket.issued + {u}))
    case _ => c
  }

  function WithFill(s: State, h: nat, f: Fill): State {
    s.(cache := s.cache.(fills := s.cache.fills[h := f]))
  }

  function EtagOf(e: Event): string {
    match e
    case PartUploaded(_, _, _, _, Stored(etag)) => etag
    case _ => ""
  }

  function DoAnswer(s: State, h: nat, e: Event, now: Time): Option<State> {
    if h !in s.cache.fills || !s.cache.fills[h].live || !Honest(s, e) then None
    else
      var f := s.cache.fills[h];
      match Next(s.cache.prefix, f.pc, e)
      case None => None
      case Some(pc) =>
        var f' := f.(trace := f.trace + [e], pc := pc);
        match Outstanding(s.cache.prefix, f.pc)
        case None => Some(WithFill(s.(cache := HandOut(s.cache, e)), h, f'))
        case Some(call) =>
          if !Succeeded(e) then Some(WithFill(s, h, f'.(limbo := Some(call))))
          else match Effect(s, h, call, EtagOf(e), now)
            case None => None
            case Some(s') => Some(WithFill(s', h, f'))
  }

  /** One step of the shared cache, or nothing if the step is not possible. */
  function Do(s: State, step: Step): Option<State> {
    match step
    case Spawn(h, v) =>
      if h in s.cache.fills then None else Some(WithFill(s, h, Fill(v, [], Start(v), true, None)))
    case Answer(h, e, now) => DoAnswer(s, h, e, now)
    case Drop(h) =>
      if h !in s.cache.fills || !s.cache.fills[h].live || Finished(s.cache.fills[h].pc) then None
      else
        var f := s.cache.fills[h];
        Some(WithFill(s, h, f.(live := false, limbo := Outstanding(s.cache.prefix, f.pc))))
    case Land(h, etag, now) =>
      if h !in s.cache.fills || s.cache.fills[h].limbo.None? then None
      else
        var f := s.cache.fills[h];
        (match Effect(s, h, f.limbo.value, etag, now)
          case None => None
          case Some(s') => Some(WithFill(s', h, f.(limbo := None))))
    case Forget(h) =>
      if h !in s.cache.fills then None else Some(WithFill(s, h, s.cache.fills[h].(limbo := None)))
    case SkipIds(next) =>
      if next < s.cache.nextId then None else Some(s.(cache := s.cache.(nextId := next)))
  }

  // ---------------------------------------------------------------- the invariant

  function Pending(prefix: string, f: Fill): Option<Call> {
    if f.limbo.Some? then f.limbo else if f.live then Outstanding(prefix, f.pc) else None
  }

  /** Row `v` is about this provider and tuple. */
  predicate About(t: Tables, v: Id, p: Provider, x: Tuple) {
    v in t.versions && Joins(t, v, p) && t.versions[v].tuple == x
  }

  predicate PcAbout(t: Tables, pc: Pc) {
    match pc
    case Start(_) => true
    case Failed(_) => true
    case Fetching(d, _, _) => About(t, d.versionId, d.provider, d.tuple)
    case _ => About(t, pc.artifact.versionId, pc.artifact.provider, pc.artifact.tuple)
  }

  /** The store holds exactly the acknowledged parts under the numbers and tags the handler lists. */
  predicate Held(b: Bucket, key: string, u: string, parts: seq<CompletedPart>, bodies: seq<Bytes>) {
    && u in b.uploads && b.uploads[u].key == key && |parts| == |bodies|
    && forall i :: 0 <= i < |parts| ==> Keeps(b.uploads[u].parts, i + 1, Part(bodies[i], parts[i].etag))
  }

  predicate Keeps(stored: map<nat, Part>, number: nat, part: Part) {
    number in stored && stored[number] == part
  }

  ghost predicate CallJustified(c: Cache, h: nat, f: Fill, call: Call) {
    match call
    case PutPart(u, _, _) => UploadOf(f.trace) == Some(u)
    case AbortUpload(u) => UploadOf(f.trace) == Some(u) && BrokenOff(f.trace)
    case CompleteUpload(u, key, parts) =>
      && UploadOf(f.trace) == Some(u) && Ended(f.trace) && StreamOf(f.trace).Some?
      && IdOf(f.trace).Some? && key == S3Key(c.prefix, IdOf(f.trace).value)
      && WellCut(parts, Bodies(f.trace), Received(f.trace))
      && (u in c.bucket.uploads ==> Held(c.bucket, key, u, parts, Bodies(f.trace)))
    case UpdateRow(a) =>
      && Fetched(a, f.versionId, f.trace) && Ended(f.trace)
      && MadeBy(c, a.artifactId, h) && a.artifactId !in c.recorded
  }

  /** The object of artifact `id` exists and handler `h` made it. */
  predicate MadeBy(c: Cache, id: Id, h: nat) {
    S3Key(c.prefix, id) in c.bucket.objects && c.bucket.objects[S3Key(c.prefix, id)].maker == h
  }

  /** The object of artifact `id` exists and was made for row `v`. */
  predicate MadeFor(c: Cache, id: Id, v: Id) {
    && S3Key(c.prefix, id) in c.bucket.objects
    && c.bucket.objects[S3Key(c.prefix, id)].maker in c.fills
    && c.fills[c.bucket.objects[S3Key(c.prefix, id)].maker].versionId == v
  }

  /** Artifact `id` was recorded at some time, and row `v` has an artifact, this or a later one. */
  predicate WasRecorded(t: Tables, c: Cache, id: Id, v: Id) {
    id in c.recorded && v in t.versions && t.versions[v].artifactId.Some?
  }

  predicate HoldsUpload(f: Fill) {
    f.live && (f.pc.Streaming? || f.pc.Uploading? || f.pc.Completing?)
  }

  ghost predicate FillInv(t: Tables, c: Cache, h: nat, f: Fill) {
    && Run(c.prefix, Start(f.versionId), f.trace) == Some(f.pc)
    && (IdOf(f.trace).Some? ==> 1 <= IdOf(f.trace).value < c.nextId)
    && (UploadOf(f.trace).Some? ==> UploadOf(f.trace).value in c.bucket.issued)
    && (f.limbo.Some? ==> !f.live || f.pc.Failed?)
    && (StreamOf(f.trace).Some? ==>
          var d := StreamOf(f.trace).value;
          d.versionId == f.versionId && About(t, d.versionId, d.provider, d.tuple))
    && PcAbout(t, f.pc)
    && (HoldsUpload(f) ==>
          Held(c.bucket, S3Key(c.prefix, f.pc.artifact.artifactId), f.pc.uploadId, f.pc.parts, Bodies(f.trace)))
    && (Pending(c.prefix, f).Some? ==> CallJustified(c, h, f, Pending(c.prefix, f).value))
    && (f.pc.Presigning? || f.pc.Redirected? ==>
          MadeFor(c, f.pc.artifact.artifactId, f.versionId) && WasRecorded(t, c, f.pc.artifact.artifactId, f.versionId))
  }

  /** The handler can no longer complete an upload. */
  predicate PastComplete(prefix: string, f: Fill) {
    && (f.live ==> f.pc.Recording? || f.pc.Presigning? || f.pc.Redirected? || f.pc.Failed?)
    && (Pending(prefix, f).Some? ==> !Pending(prefix, f).value.CompleteUpload?)
  }

  /** The handler can no longer record its artifact. */
  predicate PastRecord(prefix: string, f: Fill) {
    && PastComplete(prefix, f)
    && (f.live ==> !f.pc.Recording?)
    && (Pending(prefix, f).Some? ==> !Pending(prefix, f).value.UpdateRow?)
  }

  /** An object is the whole of the stream its maker opened, under the key of the id its maker allocated. */
  ghost predicate ObjectInv(c: Cache, key: string) {
    key in c.bucket.objects ==>
      var o := c.bucket.objects[key];
      && o.maker in c.fills
      && var f := c.fills[o.maker];
         && IdOf(f.trace).Some? && key == S3Key(c.prefix, IdOf(f.trace).value)
         && StreamOf(f.trace).Some? && Ended(f.trace) && o.bytes == Received(f.trace)
         && PastComplete(c.prefix, f)
  }

  ghost predicate RecordedInv(c: Cache, id: Id) {
    id in c.recorded ==>
      && S3Key(c.prefix, id) in c.bucket.objects
      && c.bucket.objects[S3Key(c.prefix, id)].maker in c.fills
      && PastRecord(c.prefix, c.fills[c.bucket.objects[S3Key(c.prefix, id)].maker])
  }

  ghost predicate RowInv(t: Tables, c: Cache, v: Id) {
    v in t.versions && t.versions[v].artifactId.Some? ==>
      t.versions[v].artifactId.value in c.recorded && MadeFor(c, t.versions[v].artifactId.value, v)
  }

  ghost predicate Apart(f: Fill, g: Fill) {
    && (IdOf(f.trace).Some? ==> IdOf(f.trace) != IdOf(g.trace))
    && (UploadOf(f.trace).Some? ==> UploadOf(f.trace) != UploadOf(g.trace))
  }

  ghost predicate Inv(s: State) {
    var t, c := s.tables, s.cache;
    && Constraints(t) && c.nextId >= 1
    && (forall h :: h in c.fills ==> FillInv(t, c, h, c.fills[h]))
    && (forall g, h :: g in c.fills && h in c.fills && g != h ==> Apart(c.fills[g], c.fills[h]))
    && (forall key :: ObjectInv(c, key))
    && (forall id :: RecordedInv(c, id))
    && (forall v :: RowInv(t, c, v))
  }

  lemma InitialInv(prefix: string)
    ensures Inv(State(EMPTY, Initial(prefix)))
  {
  }

  // ---------------------------------------------------------------- what one handler's step leaves alone

  /** Between `s` and `s'` only handler `h` moved: everything it does not own is still there. */
  ghost predicate Frame(s: State, s': State, h: nat) {
    var c, c' := s.cache, s'.cache;
    && c'.prefix == c.prefix && c.nextId <= c'.nextId && c.bucket.issued <= c'.bucket.issued
    && Extends(s.tables, s'.tables) && Constraints(s'.tables)
    && h in c'.fills
    && (forall g :: g in c'.fills <==> g in c.fills || g == h)
    && (forall g :: g in c.fills && g != h ==> c'.fills[g] == c.fills[g])
    && (forall key :: key in c.bucket.objects ==>
          key in c'.bucket.objects && c'.bucket.objects[key] == c.bucket.objects[key])
    && (forall u :: UploadOf(c'.fills[h].trace) != Some(u) ==>
          (u in c'.bucket.uploads <==> u in c.bucket.uploads)
          && (u in c.bucket.uploads ==> c'.bucket.uploads[u] == c.bucket.uploads[u]))
    && c.recorded <= c'.recorded
    && (forall id :: id in c'.recorded && id !in c.recorded ==> IdOf(c'.fills[h].trace) == Some(id))
  }

  /** What is settled about a handler stays settled. */
  ghost predicate Matures(prefix: string, f: Fill, f': Fill) {
    && f'.versionId == f.versionId
    && (PastComplete(prefix, f) ==>
          && PastComplete(prefix, f') && IdOf(f'.trace) == IdOf(f.trace) && StreamOf(f'.trace) == StreamOf(f.trace)
          && Ended(f'.trace) == Ended(f.trace) && Received(f'.trace) == Received(f.trace))
    && (PastRecord(prefix, f) ==> PastRecord(prefix, f'))
  }

  lemma PcAboutKept(t: Tables, t': Tables, pc: Pc)
    requires Extends(t, t') && PcAbout(t, pc)
    ensures PcAbout(t', pc)
  {
  }

  lemma MadeForKept(s: State, s': State, h: nat, id: Id, v: Id)
    requires Frame(s, s', h) && MadeFor(s.cache, id, v)
    requires h in s.cache.fills ==> s'.cache.fills[h].versionId == s.cache.fills[h].versionId
    ensures MadeFor(s'.cache, id, v)
  {
  }

  /** A handler's invariant survives the steps of the others. */
  lemma OtherKept(s: State, s': State, h: nat, g: nat)
    requires Frame(s, s', h) && g in s.cache.fills && g != h
    requires FillInv(s.tables, s.cache, g, s.cache.fills[g])
    requires Apart(s.cache.fills[g], s'.cache.fills[h])
    requires h in s.cache.fills ==> s'.cache.fills[h].versionId == s.cache.fills[h].versionId
    ensures FillInv(s'.tables, s'.cache, g, s'.cache.fills[g])
  {
    var f, c, c' := s.cache.fills[g], s.cache, s'.cache;
    PcAboutKept(s.tables, s'.tables, f.pc);
    if HoldsUpload(f) {
      assert UploadOf(f.trace) == Some(f.pc.uploadId) by {
        HistoryKnown(c.prefix, f.versionId, f.trace);
      }
      HeldKept(s, s', h, S3Key(c.prefix, f.pc.artifact.artifactId), f.pc.uploadId, f.pc.parts, Bodies(f.trace));
    }
    if f.pc.Presigning? || f.pc.Redirected? {
      MadeForKept(s, s', h, f.pc.artifact.artifactId, f.versionId);
    }
    if Pending(c.prefix, f).Some? {
      CallStillJustified(s, s', h, g, Pending(c.prefix, f).value);
    }
  }

  lemma HeldKept(s: State, s': State, h: nat, key: string, u: string, parts: seq<CompletedPart>, bodies: seq<Bytes>)
    requires Frame(s, s', h) && UploadOf(s'.cache.fills[h].trace) != Some(u)
    requires Held(s.cache.bucket, key, u, parts, bodies)
    ensures Held(s'.cache.bucket, key, u, parts, bodies)
  {
  }

  lemma CallStillJustified(s: State, s': State, h: nat, g: nat, call: Call)
    requires Frame(s, s', h) && g in s.cache.fills && g != h
    requires CallJustified(s.cache, g, s.cache.fills[g], call)
    requires Apart(s.cache.fills[g], s'.cache.fills[h])
    ensures CallJustified(s'.cache, g, s.cache.fills[g], call)
  {
  }

  lemma ObjectsKept(s: State, s': State, h: nat, key: string)
    requires Frame(s, s', h) && ObjectInv(s.cache, key) && key in s.cache.bucket.objects
    requires h in s.cache.fills ==> Matures(s.cache.prefix, s.cache.fills[h], s'.cache.fills[h])
    ensures ObjectInv(s'.cache, key)
  {
  }

  lemma RecordsKept(s: State, s': State, h: nat, id: Id)
    requires Frame(s, s', h) && RecordedInv(s.cache, id) && id in s.cache.recorded
    requires h in s.cache.fills ==> Matures(s.cache.prefix, s.cache.fills[h], s'.cache.fills[h])
    ensures RecordedInv(s'.cache, id)
  {
  }

  lemma RowsKept(s: State, s': State, h: nat, v: Id)
    requires Frame(s, s', h) && RowInv(s.tables, s.cache, v)
    requires v in s.tables.versions && v in s'.tables.versions && s'.tables.versions[v] == s.tables.versions[v]
    requires h in s.cache.fills ==> Matures(s.cache.prefix, s.cache.fills[h], s'.cache.fills[h])
    ensures RowInv(s'.tables, s'.cache, v)
  {
  }

  /** The row is new, gone, or not as it was. */
  predicate RowMoved(t: Tables, t': Tables, v: Id) {
    v !in t.versions || v !in t'.versions || t'.versions[v] != t.versions[v]
  }

  /** One handler's step keeps the invariant if it keeps its own, and accounts for whatever is new. */
  lemma StepKeepsInv(s: State, s': State, h: nat)
    requires Inv(s) && Frame(s, s', h)
    requires FillInv(s'.tables, s'.cache, h, s'.cache.fills[h])
    requires h in s.cache.fills ==> Matures(s.cache.prefix, s.cache.fills[h], s'.cache.fills[h])
    requires forall g :: g in s.cache.fills && g != h ==>
               Apart(s.cache.fills[g], s'.cache.fills[h]) && Apart(s'.cache.fills[h], s.cache.fills[g])
    requires forall key :: key !in s.cache.bucket.objects ==> ObjectInv(s'.cache, key)
    requires forall id :: id !in s.cache.recorded ==> RecordedInv(s'.cache, id)
    requires forall v :: RowMoved(s.tables, s'.tables, v) ==> RowInv(s'.tables, s'.cache, v)
    ensures Inv(s')
  {
    forall g | g in s'.cache.fills ensures FillInv(s'.tables, s'.cache, g, s'.cache.fills[g]) {
      if g != h {
        OtherKept(s, s', h, g);
      }
    }
    forall key ensures ObjectInv(s'.cache, key) {
      if key in s.cache.bucket.objects {
        ObjectsKept(s, s', h, key);
      }
    }
    forall id ensures RecordedInv(s'.cache, id) {
      if id in s.cache.recorded {
        RecordsKept(s, s', h, id);
      }
    }
    forall v ensures RowInv(s'.tables, s'.cache, v) {
      if !RowMoved(s.tables, s'.tables, v) {
        RowsKept(s, s', h, v);
      }
    }
  }

  // ---------------------------------------------------------------- steps without an effect

  lemma SpawnKeepsInv(s: State, h: nat, v: Id)
    requires Inv(s) && h !in s.cache.fills
    ensures Inv(WithFill(s, h, Fill(v, [], Start(v), true, None)))
  {
    StepKeepsInv(s, WithFill(s, h, Fill(v, [], Start(v), true, None)), h);
  }

  /** The handler's own invariant holds after its move, and it was handed nothing. */
  ghost predicate GoodTurn(s: State, h: nat, f': Fill) {
    && h in s.cache.fills && Matures(s.cache.prefix, s.cache.fills[h], f')
    && IdOf(f'.trace) == IdOf(s.cache.fills[h].trace) && UploadOf(f'.trace) == UploadOf(s.cache.fills[h].trace)
    && FillInv(s.tables, WithFill(s, h, f').cache, h, f')
  }

  /** Only this handler moved, and it did so by its own rules. */
  ghost predicate Turned(s: State, s': State, h: nat) {
    h in s'.cache.fills && s' == WithFill(s, h, s'.cache.fills[h]) && GoodTurn(s, h, s'.cache.fills[h])
  }

  /** A step that moves one handler and hands out nothing. */
  lemma TurnKeepsInv(s: State, s': State, h: nat)
    requires Inv(s) && Turned(s, s', h)
    ensures Inv(s')
  {
    StepKeepsInv(s, s', h);
  }

  lemma DropTurn(s: State, h: nat)
    requires Do(s, Drop(h)).Some? && FillInv(s.tables, s.cache, h, s.cache.fills[h])
    ensures Turned(s, Do(s, Drop(h)).value, h)
  {
  }

  lemma ForgetTurn(s: State, h: nat)
    requires Do(s, Forget(h)).Some? && FillInv(s.tables, s.cache, h, s.cache.fills[h])
    ensures Turned(s, Do(s, Forget(h)).value, h)
  {
  }

  lemma DropKeepsInv(s: State, h: nat)
    requires Inv(s) && Do(s, Drop(h)).Some?
    ensures Inv(Do(s, Drop(h)).value)
  {
    DropTurn(s, h);
    TurnKeepsInv(s, Do(s, Drop(h)).value, h);
  }

  lemma ForgetKeepsInv(s: State, h: nat)
    requires Inv(s) && Do(s, Forget(h)).Some?
    ensures Inv(Do(s, Forget(h)).value)
  {
    ForgetTurn(s, h);
    TurnKeepsInv(s, Do(s, Forget(h)).value, h);
  }

  lemma SkipKeepsInv(s: State, next: int)
    requires Inv(s) && Do(s, SkipIds(next)).Some?
    ensures Inv(Do(s, SkipIds(next)).value)
  {
    var s' := Do(s, SkipIds(next)).value;
    var t, c, c' := s.tables, s.cache, s'.cache;
    forall h | h in c'.fills ensures FillInv(t, c', h, c'.fills[h]) {
      assert FillInv(t, c, h, c.fills[h]);
    }
    forall key ensures ObjectInv(c', key) { assert ObjectInv(c, key); }
    forall id ensures RecordedInv(c', id) { assert RecordedInv(c, id); }
    forall v ensures RowInv(t, c', v) { assert RowInv(t, c, v); }
  }

  // ---------------------------------------------------------------- answers that change nothing shared

  lemma Snoc(tr: seq<Event>, e: Event)
    ensures Init(tr + [e]) == tr && Last(tr + [e]) == e
  {
  }

  /** What the handler's history and control point are after an answer. */
  lemma AnswerHistory(s: State, h: nat, e: Event, now: Time)
    requires DoAnswer(s, h, e, now).Some? && FillInv(s.tables, s.cache, h, s.cache.fills[h])
    ensures var f := s.cache.fills[h]; var f' := DoAnswer(s, h, e, now).value.cache.fills[h];
      && f.live && f'.trace == f.trace + [e] && f'.versionId == f.versionId && f'.live
      && Next(s.cache.prefix, f.pc, e) == Some(f'.pc)
      && Run(s.cache.prefix, Start(f.versionId), f'.trace) == Some(f'.pc)
      && Knows(f.pc, f.versionId, f.trace) && Knows(f'.pc, f.versionId, f'.trace)
      && (f.limbo.Some? ==> f.pc.Failed?)
  {
    var f := s.cache.fills[h];
    RunSnoc(s.cache.prefix, Start(f.versionId), f.trace, e);
    HistoryKnown(s.cache.prefix, f.versionId, f.trace);
    HistoryKnown(s.cache.prefix, f.versionId, f.trace + [e]);
  }

  /** A row answer is about the row, and names an object only if the object is there. */
  lemma StartTurn(s: State, h: nat, e: Event, now: Time)
    requires DoAnswer(s, h, e, now).Some? && s.cache.fills[h].pc.Start?
    requires FillInv(s.tables, s.cache, h, s.cache.fills[h]) && RowInv(s.tables, s.cache, s.cache.fills[h].versionId)
    requires Constraints(s.tables)
    ensures Turned(s, DoAnswer(s, h, e, now).value, h)
  {
    var f, f' := s.cache.fills[h], DoAnswer(s, h, e, now).value.cache.fills[h];
    AnswerHistory(s, h, e, now);
    Snoc(f.trace, e);
    if f'.pc.Presigning? {
      assert MadeFor(s.cache, f'.pc.artifact.artifactId, f.versionId);
      assert MadeFor(WithFill(s, h, f').cache, f'.pc.artifact.artifactId, f.versionId);
    }
  }

  lemma StartAnswer(s: State, h: nat, e: Event, now: Time)
    requires Inv(s) && DoAnswer(s, h, e, now).Some? && s.cache.fills[h].pc.Start?
    ensures Inv(DoAnswer(s, h, e, now).value)
  {
    StartTurn(s, h, e, now);
    TurnKeepsInv(s, DoAnswer(s, h, e, now).value, h);
  }

  lemma UpstreamTurn(s: State, h: nat, e: Event, now: Time)
    requires DoAnswer(s, h, e, now).Some? && s.cache.fills[h].pc.Fetching? && !(e.IdAllocated? && e.id.Some?)
    requires FillInv(s.tables, s.cache, h, s.cache.fills[h])
    ensures Turned(s, DoAnswer(s, h, e, now).value, h)
  {
    var f, f' := s.cache.fills[h], DoAnswer(s, h, e, now).value.cache.fills[h];
    AnswerHistory(s, h, e, now);
    Snoc(f.trace, e);
  }

  lemma UpstreamAnswer(s: State, h: nat, e: Event, now: Time)
    requires Inv(s) && DoAnswer(s, h, e, now).Some? && s.cache.fills[h].pc.Fetching? && !(e.IdAllocated? && e.id.Some?)
    ensures Inv(DoAnswer(s, h, e, now).value)
  {
    UpstreamTurn(s, h, e, now);
    TurnKeepsInv(s, DoAnswer(s, h, e, now).value, h);
  }

  /** A handler that was handed something fresh still shares nothing with the others. */
  lemma FreshIsApart(s: State, h: nat, f': Fill)
    requires Inv(s) && h in s.cache.fills
    requires IdOf(f'.trace) == IdOf(s.cache.fills[h].trace)
               || (IdOf(f'.trace).Some? && IdOf(f'.trace).value == s.cache.nextId)
    requires UploadOf(f'.trace) == UploadOf(s.cache.fills[h].trace)
             || (UploadOf(f'.trace).Some? && UploadOf(f'.trace).value !in s.cache.bucket.issued)
    ensures forall g :: g in s.cache.fills && g != h ==>
              Apart(s.cache.fills[g], f') && Apart(f', s.cache.fills[g])
  {
    forall g | g in s.cache.fills && g != h
      ensures Apart(s.cache.fills[g], f') && Apart(f', s.cache.fills[g])
    {
      assert FillInv(s.tables, s.cache, g, s.cache.fills[g]);
      assert Apart(s.cache.fills[h], s.cache.fills[g]) && Apart(s.cache.fills[g], s.cache.fills[h]);
    }
  }

  /** A step that hands something fresh to one handler. */
  lemma HandOutKeepsInv(s: State, h: nat, e: Event, f': Fill)
    requires Inv(s) && h in s.cache.fills && Honest(s, e) && Matures(s.cache.prefix, s.cache.fills[h], f')
    requires IdOf(f'.trace) == (if e.IdAllocated? && e.id.Some? then e.id else IdOf(s.cache.fills[h].trace))
    requires UploadOf(f'.trace) == (if e.UploadCreated? && e.created.Created? then Some(e.created.uploadId)
                                    else UploadOf(s.cache.fills[h].trace))
    requires var s' := WithFill(s.(cache := HandOut(s.cache, e)), h, f'); FillInv(s'.tables, s'.cache, h, f')
    ensures Inv(WithFill(s.(cache := HandOut(s.cache, e)), h, f'))
  {
    FreshIsApart(s, h, f');
    StepKeepsInv(s, WithFill(s.(cache := HandOut(s.cache, e)), h, f'), h);
  }

  /** The id handed out is nobody's. */
  lemma IdAnswer(s: State, h: nat, e: Event, now: Time)
    requires Inv(s) && DoAnswer(s, h, e, now).Some? && s.cache.fills[h].pc.Fetching? && e.IdAllocated? && e.id.Some?
    ensures Inv(DoAnswer(s, h, e, now).value)
  {
    var s' := DoAnswer(s, h, e, now).value;
    var f, f' := s.cache.fills[h], s'.cache.fills[h];
    assert FillInv(s.tables, s.cache, h, f);
    AnswerHistory(s, h, e, now);
    Snoc(f.trace, e);
    HandOutKeepsInv(s, h, e, f');
  }

  /** The upload handed out is nobody's, and empty. */
  lemma OpeningAnswer(s: State, h: nat, e: Event, now: Time)
    requires Inv(s) && DoAnswer(s, h, e, now).Some? && s.cache.fills[h].pc.Opening?
    ensures Inv(DoAnswer(s, h, e, now).value)
  {
    var s' := DoAnswer(s, h, e, now).value;
    var f, f' := s.cache.fills[h], s'.cache.fills[h];
    AnswerHistory(s, h, e, now);
    CuttingIsExact(s.cache.prefix, f.versionId, f.trace);
    Snoc(f.trace, e);
    HandOutKeepsInv(s, h, e, f');
  }

  lemma StreamingTurn(s: State, h: nat, e: Event, now: Time)
    requires DoAnswer(s, h, e, now).Some? && s.cache.fills[h].pc.Streaming?
    requires FillInv(s.tables, s.cache, h, s.cache.fills[h])
    ensures Turned(s, DoAnswer(s, h, e, now).value, h)
  {
    var f, f' := s.cache.fills[h], DoAnswer(s, h, e, now).value.cache.fills[h];
    AnswerHistory(s, h, e, now);
    Snoc(f.trace, e);
    assert Bodies(f'.trace) == Bodies(f.trace);
    if f'.pc.Completing? {
      CuttingIsExact(s.cache.prefix, f.versionId, f'.trace);
    }
  }

  lemma StreamingAnswer(s: State, h: nat, e: Event, now: Time)
    requires Inv(s) && DoAnswer(s, h, e, now).Some? && s.cache.fills[h].pc.Streaming?
    ensures Inv(DoAnswer(s, h, e, now).value)
  {
    StreamingTurn(s, h, e, now);
    TurnKeepsInv(s, DoAnswer(s, h, e, now).value, h);
  }

  lemma PresigningTurn(s: State, h: nat, e: Event, now: Time)
    requires DoAnswer(s, h, e, now).Some? && s.cache.fills[h].pc.Presigning?
    requires FillInv(s.tables, s.cache, h, s.cache.fills[h])
    ensures Turned(s, DoAnswer(s, h, e, now).value, h)
  {
    var f, f' := s.cache.fills[h], DoAnswer(s, h, e, now).value.cache.fills[h];
    AnswerHistory(s, h, e, now);
    Snoc(f.trace, e);
  }

  lemma PresigningAnswer(s: State, h: nat, e: Event, now: Time)
    requires Inv(s) && DoAnswer(s, h, e, now).Some? && s.cache.fills[h].pc.Presigning?
    ensures Inv(DoAnswer(s, h, e, now).value)
  {
    PresigningTurn(s, h, e, now);
    TurnKeepsInv(s, DoAnswer(s, h, e, now).value, h);
  }

  // ---------------------------------------------------------------- effectful calls

  /** An answer that adds no byte, part, stream, id or upload to a history. */
  ghost predicate SameHistory(tr: seq<Event>, tr': seq<Event>) {
    && IdOf(tr') == IdOf(tr) && UploadOf(tr') == UploadOf(tr) && StreamOf(tr') == StreamOf(tr)
    && Ended(tr') == Ended(tr) && BrokenOff(tr') == BrokenOff(tr) && Received(tr') == Received(tr)
  }

  predicate Effectful(e: Event) {
    e.PartUploaded? || e.UploadAborted? || e.UploadCompleted? || e.RowUpdated?
  }

  lemma EffectfulTellsNothing(tr: seq<Event>, e: Event)
    requires Effectful(e)
    ensures SameHistory(tr, tr + [e])
    ensures !(e.PartUploaded? && e.part.Stored?) ==> Bodies(tr + [e]) == Bodies(tr)
    ensures e.PartUploaded? && e.part.Stored? ==> Bodies(tr + [e]) == Bodies(tr) + [e.body]
  {
    Snoc(tr, e);
  }

  /** A failed call may still land later; until then nothing has changed. */
  lemma FailureTurn(s: State, h: nat, e: Event, now: Time)
    requires DoAnswer(s, h, e, now).Some? && Outstanding(s.cache.prefix, s.cache.fills[h].pc).Some? && !Succeeded(e)
    requires FillInv(s.tables, s.cache, h, s.cache.fills[h])
    ensures Turned(s, DoAnswer(s, h, e, now).value, h)
  {
    var f, f' := s.cache.fills[h], DoAnswer(s, h, e, now).value.cache.fills[h];
    AnswerHistory(s, h, e, now);
    EffectfulTellsNothing(f.trace, e);
  }

  lemma FailureKeepsInv(s: State, h: nat, e: Event, now: Time)
    requires Inv(s) && DoAnswer(s, h, e, now).Some? && Outstanding(s.cache.prefix, s.cache.fills[h].pc).Some?
    requires !Succeeded(e)
    ensures Inv(DoAnswer(s, h, e, now).value)
  {
    FailureTurn(s, h, e, now);
    TurnKeepsInv(s, DoAnswer(s, h, e, now).value, h);
  }

  /** A call that was still to take effect does, and the handler's own invariant holds afterwards. */
  ghost predicate GoodEffect(s: State, h: nat, call: Call, etag: string, now: Time, f': Fill) {
    && h in s.cache.fills && Pending(s.cache.prefix, s.cache.fills[h]) == Some(call)
    && Effect(s, h, call, etag, now).Some?
    && SameHistory(s.cache.fills[h].trace, f'.trace) && Matures(s.cache.prefix, s.cache.fills[h], f')
    && var s' := After(s, h, call, etag, now, f'); FillInv(s'.tables, s'.cache, h, f')
  }

  function After(s: State, h: nat, call: Call, etag: string, now: Time, f': Fill): State
    requires Effect(s, h, call, etag, now).Some?
  {
    WithFill(Effect(s, h, call, etag, now).value, h, f')
  }

  /** A part or an abort touches only the handler's own upload. */
  lemma OwnUploadKeepsInv(s: State, h: nat, call: Call, etag: string, now: Time, f': Fill)
    requires Inv(s) && GoodEffect(s, h, call, etag, now, f') && (call.PutPart? || call.AbortUpload?)
    ensures Inv(After(s, h, call, etag, now, f'))
  {
    assert FillInv(s.tables, s.cache, h, s.cache.fills[h]);
    FreshIsApart(s, h, f');
    StepKeepsInv(s, After(s, h, call, etag, now, f'), h);
  }

  /** A completed upload makes one new object, out of exactly the bytes its handler received. */
  lemma CompletionIsExact(s: State, h: nat, call: Call, now: Time)
    requires Inv(s) && h in s.cache.fills && call.CompleteUpload?
    requires Pending(s.cache.prefix, s.cache.fills[h]) == Some(call)
    requires Effect(s, h, call, "", now).Some?
    ensures var b := Effect(s, h, call, "", now).value.cache.bucket;
      && call.key !in s.cache.bucket.objects
      && b.objects == s.cache.bucket.objects[call.key := Object(Received(s.cache.fills[h].trace), h)]
      && IdOf(s.cache.fills[h].trace).value !in s.cache.recorded
  {
    var f, c := s.cache.fills[h], s.cache;
    assert FillInv(s.tables, c, h, f);
    assert CallJustified(c, h, f, call);
    var bodies := Bodies(f.trace);
    AssembleHeld(c.bucket, call.key, call.uploadId, call.parts, bodies);
    KeyIsFree(s, h, call.key);
    assert RecordedInv(c, IdOf(f.trace).value);
  }

  lemma AssembleHeld(b: Bucket, key: string, u: string, parts: seq<CompletedPart>, bodies: seq<Bytes>)
    requires Held(b, key, u, parts, bodies) && Numbered(parts) && parts != []
    ensures Assemble(b.uploads[u].parts, parts) == Some(Concat(bodies))
  {
    var stored := b.uploads[u].parts;
    forall i | 0 <= i < |parts|
      ensures parts[i].number in stored && stored[parts[i].number].etag == parts[i].etag
              && stored[parts[i].number].body == bodies[i]
    {
      assert Keeps(stored, i + 1, Part(bodies[i], parts[i].etag));
    }
    assert Listed(stored, parts);
    assert seq(|parts|, i requires 0 <= i < |parts| => stored[parts[i].number].body) == bodies;
  }

  /** No object is ever written under the key of a handler that has not completed. */
  lemma KeyIsFree(s: State, h: nat, key: string)
    requires Inv(s) && h in s.cache.fills && !PastComplete(s.cache.prefix, s.cache.fills[h])
    requires IdOf(s.cache.fills[h].trace).Some? && key == S3Key(s.cache.prefix, IdOf(s.cache.fills[h].trace).value)
    ensures key !in s.cache.bucket.objects
  {
    var c := s.cache;
    assert ObjectInv(c, key);
    if key in c.bucket.objects {
      var m := c.bucket.objects[key].maker;
      assert m != h ==> Apart(c.fills[m], c.fills[h]);
      S3KeyInjective(c.prefix, IdOf(c.fills[m].trace).value, IdOf(c.fills[h].trace).value);
    }
  }

  /** Of what others see a completion changes nothing but to add the object. */
  lemma CompletionFrame(s: State, h: nat, call: Call, now: Time, f': Fill)
    requires Constraints(s.tables) && h in s.cache.fills && call.CompleteUpload? && Effect(s, h, call, "", now).Some?
    requires call.key !in s.cache.bucket.objects && UploadOf(f'.trace) == Some(call.uploadId)
    ensures Frame(s, After(s, h, call, "", now, f'), h)
  {
  }

  lemma CompletionKeepsInv(s: State, h: nat, call: Call, now: Time, f': Fill)
    requires Inv(s) && GoodEffect(s, h, call, "", now, f') && call.CompleteUpload? && PastComplete(s.cache.prefix, f')
    ensures Inv(After(s, h, call, "", now, f'))
  {
    var f := s.cache.fills[h];
    assert FillInv(s.tables, s.cache, h, f);
    assert CallJustified(s.cache, h, f, call);
    CompletionIsExact(s, h, call, now);
    CompletionFrame(s, h, call, now, f');
    FreshIsApart(s, h, f');
    StepKeepsInv(s, After(s, h, call, "", now, f'), h);
  }

  /** The unique constraint on artifact ids never refuses a row update. */
  lemma UpdateNeverRefused(s: State, h: nat, call: Call, etag: string, now: Time)
    requires Inv(s) && h in s.cache.fills && call.UpdateRow?
    requires Pending(s.cache.prefix, s.cache.fills[h]) == Some(call)
    ensures Record(s.tables, call.artifact.versionId, call.artifact.artifactId, now).Ok?
    ensures Effect(s, h, call, etag, now).Some?
  {
    var t, c, f, a := s.tables, s.cache, s.cache.fills[h], call.artifact;
    assert FillInv(t, c, h, f);
    assert CallJustified(c, h, f, call);
    forall j | j in t.versions
      ensures t.versions[j].artifactId != Some(a.artifactId)
    {
      assert RowInv(t, c, j);
    }
  }

  /** Of what others see a row update changes nothing but its row. */
  lemma UpdateFrame(s: State, h: nat, call: Call, etag: string, now: Time, f': Fill)
    requires Constraints(s.tables) && h in s.cache.fills && call.UpdateRow? && Effect(s, h, call, etag, now).Some?
    requires IdOf(f'.trace) == Some(call.artifact.artifactId)
    ensures Frame(s, After(s, h, call, etag, now, f'), h)
  {
    RecordRows(s.tables, call.artifact.versionId, call.artifact.artifactId, now);
  }

  /** The updated row, and no other, names the artifact, and its object is there. */
  lemma UpdatedRows(s: State, h: nat, call: Call, etag: string, now: Time, f': Fill, v: Id)
    requires Constraints(s.tables) && h in s.cache.fills && call.UpdateRow? && Effect(s, h, call, etag, now).Some?
    requires MadeBy(s.cache, call.artifact.artifactId, h) && call.artifact.versionId == f'.versionId
    requires RowMoved(s.tables, After(s, h, call, etag, now, f').tables, v)
    ensures RowInv(After(s, h, call, etag, now, f').tables, After(s, h, call, etag, now, f').cache, v)
  {
    RecordRows(s.tables, call.artifact.versionId, call.artifact.artifactId, now);
  }

  lemma UpdateKeepsInv(s: State, h: nat, call: Call, etag: string, now: Time, f': Fill)
    requires Inv(s) && GoodEffect(s, h, call, etag, now, f') && call.UpdateRow? && PastRecord(s.cache.prefix, f')
    ensures Inv(After(s, h, call, etag, now, f'))
  {
    var s' := After(s, h, call, etag, now, f');
    var f := s.cache.fills[h];
    assert FillInv(s.tables, s.cache, h, f);
    assert CallJustified(s.cache, h, f, call);
    UpdateFrame(s, h, call, etag, now, f');
    FreshIsApart(s, h, f');
    forall v | RowMoved(s.tables, s'.tables, v)
      ensures RowInv(s'.tables, s'.cache, v)
    {
      UpdatedRows(s, h, call, etag, now, f', v);
    }
    StepKeepsInv(s, s', h);
  }

  // ---------------------------------------------------------------- effects, answered or late

  lemma PartTurn(s: State, h: nat, e: Event, now: Time)
    requires DoAnswer(s, h, e, now).Some? && Succeeded(e) && s.cache.fills[h].pc.Uploading?
    requires FillInv(s.tables, s.cache, h, s.cache.fills[h])
    ensures var s' := DoAnswer(s, h, e, now).value; var call := Outstanding(s.cache.prefix, s.cache.fills[h].pc).value;
      && GoodEffect(s, h, call, EtagOf(e), now, s'.cache.fills[h])
      && s' == After(s, h, call, EtagOf(e), now, s'.cache.fills[h])
  {
    var s' := DoAnswer(s, h, e, now).value;
    var f := s.cache.fills[h];
    AnswerHistory(s, h, e, now);
    EffectfulTellsNothing(f.trace, e);
    PartHeld(s.cache.bucket, s'.cache.bucket, S3Key(s.cache.prefix, f.pc.artifact.artifactId), f.pc.uploadId,
             f.pc.parts, Bodies(f.trace), f.pc.buffer, EtagOf(e));
    if f.pc.last {
      CuttingIsExact(s.cache.prefix, f.versionId, s'.cache.fills[h].trace);
    }
  }

  lemma AnsweredPart(s: State, h: nat, e: Event, now: Time)
    requires Inv(s) && DoAnswer(s, h, e, now).Some? && Succeeded(e) && s.cache.fills[h].pc.Uploading?
    ensures Inv(DoAnswer(s, h, e, now).value)
  {
    var call, f' := Outstanding(s.cache.prefix, s.cache.fills[h].pc).value, DoAnswer(s, h, e, now).value.cache.fills[h];
    assert FillInv(s.tables, s.cache, h, s.cache.fills[h]);
    PartTurn(s, h, e, now);
    OwnUploadKeepsInv(s, h, call, EtagOf(e), now, f');
  }

  lemma PartHeld(b: Bucket, b': Bucket, key: string, u: string, parts: seq<CompletedPart>, bodies: seq<Bytes>,
                 body: Bytes, etag: string)
    requires Held(b, key, u, parts, bodies)
    requires b'.uploads == b.uploads[u := b.uploads[u].(parts := b.uploads[u].parts[|parts| + 1 := Part(body, etag)])]
    ensures Held(b', key, u, parts + [CompletedPart(etag, |parts| + 1)], bodies + [body])
  {
    var parts', bodies' := parts + [CompletedPart(etag, |parts| + 1)], bodies + [body];
    forall i | 0 <= i < |parts'|
      ensures Keeps(b'.uploads[u].parts, i + 1, Part(bodies'[i], parts'[i].etag))
    {
      if i < |parts| {
        assert Keeps(b.uploads[u].parts, i + 1, Part(bodies[i], parts[i].etag));
      }
    }
  }

  lemma AbortTurn(s: State, h: nat, e: Event, now: Time)
    requires DoAnswer(s, h, e, now).Some? && Succeeded(e) && s.cache.fills[h].pc.Aborting?
    requires FillInv(s.tables, s.cache, h, s.cache.fills[h])
    ensures var s' := DoAnswer(s, h, e, now).value; var call := Outstanding(s.cache.prefix, s.cache.fills[h].pc).value;
      && GoodEffect(s, h, call, EtagOf(e), now, s'.cache.fills[h])
      && s' == After(s, h, call, EtagOf(e), now, s'.cache.fills[h])
  {
    AnswerHistory(s, h, e, now);
    EffectfulTellsNothing(s.cache.fills[h].trace, e);
  }

  lemma AnsweredAbort(s: State, h: nat, e: Event, now: Time)
    requires Inv(s) && DoAnswer(s, h, e, now).Some? && Succeeded(e) && s.cache.fills[h].pc.Aborting?
    ensures Inv(DoAnswer(s, h, e, now).value)
  {
    var call, f' := Outstanding(s.cache.prefix, s.cache.fills[h].pc).value, DoAnswer(s, h, e, now).value.cache.fills[h];
    assert FillInv(s.tables, s.cache, h, s.cache.fills[h]);
    AbortTurn(s, h, e, now);
    OwnUploadKeepsInv(s, h, call, EtagOf(e), now, f');
  }

  lemma CompletionTurn(s: State, h: nat, e: Event, now: Time)
    requires DoAnswer(s, h, e, now).Some? && Succeeded(e) && s.cache.fills[h].pc.Completing?
    requires FillInv(s.tables, s.cache, h, s.cache.fills[h])
    requires IdOf(s.cache.fills[h].trace).Some? ==> IdOf(s.cache.fills[h].trace).value !in s.cache.recorded
    ensures var s' := DoAnswer(s, h, e, now).value; var call := Outstanding(s.cache.prefix, s.cache.fills[h].pc).value;
      && GoodEffect(s, h, call, EtagOf(e), now, s'.cache.fills[h])
      && s' == After(s, h, call, EtagOf(e), now, s'.cache.fills[h])
      && PastComplete(s.cache.prefix, s'.cache.fills[h])
  {
    AnswerHistory(s, h, e, now);
    EffectfulTellsNothing(s.cache.fills[h].trace, e);
  }

  lemma AnsweredCompletion(s: State, h: nat, e: Event, now: Time)
    requires Inv(s) && DoAnswer(s, h, e, now).Some? && Succeeded(e) && s.cache.fills[h].pc.Completing?
    ensures Inv(DoAnswer(s, h, e, now).value)
  {
    var call, f' := Outstanding(s.cache.prefix, s.cache.fills[h].pc).value, DoAnswer(s, h, e, now).value.cache.fills[h];
    assert FillInv(s.tables, s.cache, h, s.cache.fills[h]);
    CompletionIsExact(s, h, call, now);
    CompletionTurn(s, h, e, now);
    CompletionKeepsInv(s, h, call, now, f');
  }

  lemma UpdateFill(s: State, h: nat, e: Event, now: Time)
    requires DoAnswer(s, h, e, now).Some? && Succeeded(e) && s.cache.fills[h].pc.Recording?
    requires FillInv(s.tables, s.cache, h, s.cache.fills[h]) && Constraints(s.tables)
    ensures var s' := DoAnswer(s, h, e, now).value; FillInv(s'.tables, s'.cache, h, s'.cache.fills[h])
  {
    var f := s.cache.fills[h];
    AnswerHistory(s, h, e, now);
    EffectfulTellsNothing(f.trace, e);
    assert CallJustified(s.cache, h, f, Outstanding(s.cache.prefix, f.pc).value);
    RecordRows(s.tables, f.pc.artifact.versionId, f.pc.artifact.artifactId, now);
  }

  lemma UpdateTurn(s: State, h: nat, e: Event, now: Time)
    requires DoAnswer(s, h, e, now).Some? && Succeeded(e) && s.cache.fills[h].pc.Recording?
    requires FillInv(s.tables, s.cache, h, s.cache.fills[h]) && Constraints(s.tables)
    ensures var s' := DoAnswer(s, h, e, now).value; var call := Outstanding(s.cache.prefix, s.cache.fills[h].pc).value;
      && GoodEffect(s, h, call, EtagOf(e), now, s'.cache.fills[h])
      && s' == After(s, h, call, EtagOf(e), now, s'.cache.fills[h])
      && PastRecord(s.cache.prefix, s'.cache.fills[h])
  {
    UpdateFill(s, h, e, now);
    AnswerTrace(s, h, e, now);
    EffectfulTellsNothing(s.cache.fills[h].trace, e);
  }

  lemma AnswerTrace(s: State, h: nat, e: Event, now: Time)
    requires DoAnswer(s, h, e, now).Some?
    ensures var f, f' := s.cache.fills[h], DoAnswer(s, h, e, now).value.cache.fills[h];
      f'.trace == f.trace + [e] && f'.versionId == f.versionId && f'.live == f.live
  {
  }

  lemma AnsweredUpdate(s: State, h: nat, e: Event, now: Time)
    requires Inv(s) && DoAnswer(s, h, e, now).Some? && Succeeded(e) && s.cache.fills[h].pc.Recording?
    ensures Inv(DoAnswer(s, h, e, now).value)
  {
    var call, f' := Outstanding(s.cache.prefix, s.cache.fills[h].pc).value, DoAnswer(s, h, e, now).value.cache.fills[h];
    assert FillInv(s.tables, s.cache, h, s.cache.fills[h]);
    UpdateTurn(s, h, e, now);
    UpdateKeepsInv(s, h, call, EtagOf(e), now, f');
  }

  lemma LateUploadCallTurn(s: State, h: nat, etag: string, now: Time)
    requires Do(s, Land(h, etag, now)).Some?
    requires s.cache.fills[h].limbo.value.PutPart? || s.cache.fills[h].limbo.value.AbortUpload?
    requires FillInv(s.tables, s.cache, h, s.cache.fills[h])
    ensures var call, f' := s.cache.fills[h].limbo.value, s.cache.fills[h].(limbo := None);
      && GoodEffect(s, h, call, etag, now, f') && Do(s, Land(h, etag, now)).value == After(s, h, call, etag, now, f')
  {
  }

  lemma LateUploadCall(s: State, h: nat, etag: string, now: Time)
    requires Inv(s) && Do(s, Land(h, etag, now)).Some?
    requires s.cache.fills[h].limbo.value.PutPart? || s.cache.fills[h].limbo.value.AbortUpload?
    ensures Inv(Do(s, Land(h, etag, now)).value)
  {
    var f := s.cache.fills[h];
    assert FillInv(s.tables, s.cache, h, f);
    LateUploadCallTurn(s, h, etag, now);
    OwnUploadKeepsInv(s, h, f.limbo.value, etag, now, f.(limbo := None));
  }

  lemma LateCompletionTurn(s: State, h: nat, etag: string, now: Time)
    requires Do(s, Land(h, etag, now)).Some? && s.cache.fills[h].limbo.value.CompleteUpload?
    requires FillInv(s.tables, s.cache, h, s.cache.fills[h])
    requires IdOf(s.cache.fills[h].trace).Some? ==> IdOf(s.cache.fills[h].trace).value !in s.cache.recorded
    ensures var call, f' := s.cache.fills[h].limbo.value, s.cache.fills[h].(limbo := None);
      && GoodEffect(s, h, call, "", now, f') && Do(s, Land(h, etag, now)).value == After(s, h, call, "", now, f')
      && PastComplete(s.cache.prefix, f')
  {
  }

  lemma LateCompletion(s: State, h: nat, etag: string, now: Time)
    requires Inv(s) && Do(s, Land(h, etag, now)).Some? && s.cache.fills[h].limbo.value.CompleteUpload?
    ensures Inv(Do(s, Land(h, etag, now)).value)
  {
    var f := s.cache.fills[h];
    assert FillInv(s.tables, s.cache, h, f);
    CompletionIsExact(s, h, f.limbo.value, now);
    LateCompletionTurn(s, h, etag, now);
    CompletionKeepsInv(s, h, f.limbo.value, now, f.(limbo := None));
  }

  lemma LateUpdateTurn(s: State, h: nat, etag: string, now: Time)
    requires Do(s, Land(h, etag, now)).Some? && s.cache.fills[h].limbo.value.UpdateRow?
    requires FillInv(s.tables, s.cache, h, s.cache.fills[h]) && Constraints(s.tables)
    ensures var call, f' := s.cache.fills[h].limbo.value, s.cache.fills[h].(limbo := None);
      && GoodEffect(s, h, call, etag, now, f') && Do(s, Land(h, etag, now)).value == After(s, h, call, etag, now, f')
      && PastRecord(s.cache.prefix, f')
  {
    var a := s.cache.fills[h].limbo.value.artifact;
    RecordRows(s.tables, a.versionId, a.artifactId, now);
  }

  lemma LateUpdate(s: State, h: nat, etag: string, now: Time)
    requires Inv(s) && Do(s, Land(h, etag, now)).Some? && s.cache.fills[h].limbo.value.UpdateRow?
    ensures Inv(Do(s, Land(h, etag, now)).value)
  {
    var f := s.cache.fills[h];
    assert FillInv(s.tables, s.cache, h, f);
    LateUpdateTurn(s, h, etag, now);
    UpdateKeepsInv(s, h, f.limbo.value, etag, now, f.(limbo := None));
  }

  /** A call that takes effect after its sender gave up or went away. */
  lemma LandKeepsInv(s: State, h: nat, etag: string, now: Time)
    requires Inv(s) && Do(s, Land(h, etag, now)).Some?
    ensures Inv(Do(s, Land(h, etag, now)).value)
  {
    match s.cache.fills[h].limbo.value {
      case CompleteUpload(_, _, _) => LateCompletion(s, h, etag, now);
      case UpdateRow(_) => LateUpdate(s, h, etag, now);
      case _ => LateUploadCall(s, h, etag, now);
    }
  }

  lemma AnswerKeepsInv(s: State, h: nat, e: Event, now: Time)
    requires Inv(s) && DoAnswer(s, h, e, now).Some?
    ensures Inv(DoAnswer(s, h, e, now).value)
  {
    var pc := s.cache.fills[h].pc;
    if Outstanding(s.cache.prefix, pc).Some? {
      if !Succeeded(e) {
        FailureKeepsInv(s, h, e, now);
      } else if pc.Uploading? {
        AnsweredPart(s, h, e, now);
      } else if pc.Aborting? {
        AnsweredAbort(s, h, e, now);
      } else if pc.Completing? {
        AnsweredCompletion(s, h, e, now);
      } else {
        AnsweredUpdate(s, h, e, now);
      }
    } else if pc.Start? {
      StartAnswer(s, h, e, now);
    } else if pc.Fetching? {
      if e.IdAllocated? && e.id.Some? {
        IdAnswer(s, h, e, now);
      } else {
        UpstreamAnswer(s, h, e, now);
      }
    } else if pc.Opening? {
      OpeningAnswer(s, h, e, now);
    } else if pc.Streaming? {
      StreamingAnswer(s, h, e, now);
    } else {
      PresigningAnswer(s, h, e, now);
    }
  }

  /** Every step, whoever takes it and whatever fails, keeps the invariant. */
  lemma StepInv(s: State, step: Step)
    requires Inv(s) && Do(s, step).Some?
    ensures Inv(Do(s, step).value)
  {
    match step
    case Spawn(h, v) => SpawnKeepsInv(s, h, v);
    case Answer(h, e, now) => AnswerKeepsInv(s, h, e, now);
    case Drop(h) => DropKeepsInv(s, h);
    case Land(h, etag, now) => LandKeepsInv(s, h, etag, now);
    case Forget(h) => ForgetKeepsInv(s, h);
    case SkipIds(next) => SkipKeepsInv(s, next);
  }
}
