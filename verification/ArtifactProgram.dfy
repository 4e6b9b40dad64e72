/** The artifact handler as a program over its external calls: which call each control point awaits,
    with which arguments, and where each answer leads.  A handler's history is the sequence of the
    calls it made with the answers it got. */
module ArtifactProgram {
  import opened Basics
  import opened Decimal
  import opened Catalogue

  const S3_MINIMUM_UPLOAD_CHUNK_BYTES: nat := 10_485_760

  /** The object key of an artifact. */
  function S3Key(prefix: string, artifactId: Id): string {
    prefix + "artifacts/" + ToString(artifactId)
  }

  /** Under one prefix, different artifacts live under different keys. */
  lemma S3KeyInjective(prefix: string, m: Id, n: Id)
    requires S3Key(prefix, m) == S3Key(prefix, n)
    ensures m == n
  {
    var k := |prefix + "artifacts/"|;
    assert S3Key(prefix, m)[k..] == ToString(m);
    assert S3Key(prefix, n)[k..] == ToString(n);
    PrintInjective(m, n);
  }

  /** The key lies in the artifact directory under the prefix, and the rest of it is the id in decimal. */
  predicate Names(prefix: string, key: string, artifactId: Id) {
    && prefix <= key && |key| >= |prefix| + 10 && key[|prefix|..|prefix| + 10] == "artifacts/"
    && ParseI64(key[|prefix| + 10..]) == Some(artifactId)
  }

  lemma S3KeyNames(prefix: string, artifactId: Id)
    ensures Names(prefix, S3Key(prefix, artifactId), artifactId)
  {
    var key := S3Key(prefix, artifactId);
    assert key == prefix + ("artifacts/" + ToString(artifactId));
    assert key[|prefix|..|prefix| + 10] == "artifacts/";
    assert key[|prefix| + 10..] == ToString(artifactId);
    PrintParse(artifactId);
  }

  /** A version row joined to its provider. */
  datatype Details = Details(versionId: Id, provider: Provider, tuple: Tuple, artifactId: Option<Id>)

  datatype Artifact = Artifact(versionId: Id, provider: Provider, tuple: Tuple, artifactId: Id)

  function ArtifactOf(d: Details, artifactId: Id): Artifact {
    Artifact(d.versionId, d.provider, d.tuple, artifactId)
  }

  datatype Status = NotFound | BadGateway | InternalServerError

  datatype CompletedPart = CompletedPart(etag: string, number: nat)

  datatype Item = Chunk(bytes: Bytes) | Broken | End

  datatype CreateAnswer = CreateFailed | NoUploadId | Created(uploadId: string)

  datatype PartAnswer = PartFailed | NoEtag | Stored(etag: string)

  /** One external call with its answer. */
  datatype Event =
    | RowRead(versionId: Id, row: Result<Option<Details>, DbError>)
    | IdAllocated(id: Option<Id>)
    | UpstreamOpened(details: Details, ok: bool)
    | UploadCreated(key: string, created: CreateAnswer)
    | ChunkReceived(item: Item)
    | PartUploaded(key: string, uploadId: string, number: nat, body: Bytes, part: PartAnswer)
    | UploadAborted(key: string, uploadId: string, ok: bool)
    | UploadCompleted(key: string, uploadId: string, parts: seq<CompletedPart>, ok: bool)
    | RowUpdated(artifactId: Id, versionId: Id, ok: bool)
    | Presigned(key: string, ok: bool)

  datatype Pc =
    | Start(versionId: Id)
    | Fetching(details: Details, id: Option<Id>, upstream: bool)
    | Opening(artifact: Artifact)
    | Streaming(artifact: Artifact, uploadId: string, buffer: Bytes, parts: seq<CompletedPart>)
    | Uploading(artifact: Artifact, uploadId: string, buffer: Bytes, parts: seq<CompletedPart>, last: bool)
    | Aborting(artifact: Artifact, uploadId: string)
    | Completing(artifact: Artifact, uploadId: string, parts: seq<CompletedPart>)
    | Recording(artifact: Artifact)
    | Presigning(artifact: Artifact)
    | Redirected(artifact: Artifact, key: string)
    | Failed(status: Status)

  predicate Finished(pc: Pc) {
    pc.Redirected? || pc.Failed?
  }

  /** Both halves of the joined fetch have succeeded, or the handler still waits for the other. */
  function Joined(d: Details, id: Option<Id>, upstream: bool): Pc {
    if id.Some? && upstream then Opening(ArtifactOf(d, id.value)) else Fetching(d, id, upstream)
  }

  /** A chunk goes into the buffer; the buffer goes out once it is large enough. */
  function Absorb(a: Artifact, uploadId: string, buffer: Bytes, parts: seq<CompletedPart>): Pc {
    if |buffer| < S3_MINIMUM_UPLOAD_CHUNK_BYTES
    then Streaming(a, uploadId, buffer, parts)
    else Uploading(a, uploadId, buffer, parts, false)
  }

  function AfterPart(pc: Pc, part: PartAnswer): Pc
    requires pc.Uploading?
  {
    match part
    case Stored(etag) =>
      var parts := pc.parts + [CompletedPart(etag, |pc.parts| + 1)];
      if pc.last then Completing(pc.artifact, pc.uploadId, parts) else Streaming(pc.artifact, pc.uploadId, [], parts)
    case _ => Failed(InternalServerError)
  }

  /** Where answer `e` takes the handler, or nothing if `e` is not an answer to the awaited call. */
  function Next(prefix: string, pc: Pc, e: Event): Option<Pc> {
    match (pc, e)
    case (Start(v), RowRead(w, row)) =>
      if w != v then None
      else (match row
        case Err(_) => Some(Failed(InternalServerError))
        case Ok(None) => Some(Failed(NotFound))
        case Ok(Some(d)) =>
          if d.versionId != v then None
          else if d.artifactId.Some? then Some(Presigning(ArtifactOf(d, d.artifactId.value)))
          else Some(Fetching(d, None, false)))
    case (Fetching(d, id, upstream), IdAllocated(answer)) =>
      if id.Some? then None
      else if answer.None? then Some(Failed(InternalServerError))
      else Some(Joined(d, answer, upstream))
    case (Fetching(d, id, upstream), UpstreamOpened(asked, ok)) =>
      if upstream || asked != d then None
      else if !ok then Some(Failed(BadGateway))
      else Some(Joined(d, id, true))
    case (Opening(a), UploadCreated(key, answer)) =>
      if key != S3Key(prefix, a.artifactId) then None
      else (match answer
        case Created(u) => Some(Streaming(a, u, [], []))
        case _ => Some(Failed(InternalServerError)))
    case (Streaming(a, u, buffer, parts), ChunkReceived(item)) =>
      (match item
        case Chunk(bytes) => Some(Absorb(a, u, buffer + bytes, parts))
        case Broken => Some(Aborting(a, u))
        case End => if buffer != [] then Some(Uploading(a, u, buffer, parts, true)) else Some(Completing(a, u, parts)))
    case (Uploading(a, u, buffer, parts, last), PartUploaded(key, w, number, body, part)) =>
      if key == S3Key(prefix, a.artifactId) && w == u && number == |parts| + 1 && body == buffer
      then Some(AfterPart(pc, part)) else None
    case (Aborting(a, u), UploadAborted(key, w, _)) =>
      if key == S3Key(prefix, a.artifactId) && w == u then Some(Failed(InternalServerError)) else None
    case (Completing(a, u, parts), UploadCompleted(key, w, listed, ok)) =>
      if key == S3Key(prefix, a.artifactId) && w == u && listed == parts
      then Some(if ok then Recording(a) else Failed(InternalServerError)) else None
    case (Recording(a), RowUpdated(id, v, ok)) =>
      if id == a.artifactId && v == a.versionId
      then Some(if ok then Presigning(a) else Failed(InternalServerError)) else None
    case (Presigning(a), Presigned(key, ok)) =>
      if key != S3Key(prefix, a.artifactId) then None
      else Some(if ok then Redirected(a, key) else Failed(InternalServerError))
    case _ => None
  }

  /** The control point a history leads to, if it is a history of this program. */
  function Run(prefix: string, pc: Pc, tr: seq<Event>): Option<Pc> {
    if tr == [] then Some(pc)
    else match Run(prefix, pc, Init(tr)) case None => None case Some(mid) => Next(prefix, mid, Last(tr))
  }

  lemma RunSnoc(prefix: string, pc: Pc, tr: seq<Event>, e: Event)
    ensures Run(prefix, pc, tr + [e]) ==
            match Run(prefix, pc, tr) case None => None case Some(mid) => Next(prefix, mid, e)
  {
    assert Init(tr + [e]) == tr;
  }

  // ---------------------------------------------------------------- what a history says

  /** Every byte the upstream stream delivered. */
  function Received(tr: seq<Event>): Bytes {
    if tr == [] then []
    else match Last(tr)
      case ChunkReceived(Chunk(bytes)) => Received(Init(tr)) + bytes
      case _ => Received(Init(tr))
  }

  /** The bodies of the parts the store acknowledged, in order. */
  function Bodies(tr: seq<Event>): seq<Bytes> {
    if tr == [] then []
    else match Last(tr)
      case PartUploaded(_, _, _, body, Stored(_)) => Bodies(Init(tr)) + [body]
      case _ => Bodies(Init(tr))
  }

  /** The row the handler found. */
  function RowOf(tr: seq<Event>): Option<Details> {
    if tr == [] then None
    else match Last(tr)
      case RowRead(_, Ok(Some(d))) => Some(d)
      case _ => RowOf(Init(tr))
  }

  function IdOf(tr: seq<Event>): Option<Id> {
    if tr == [] then None
    else match Last(tr)
      case IdAllocated(Some(id)) => Some(id)
      case _ => IdOf(Init(tr))
  }

  function UploadOf(tr: seq<Event>): Option<string> {
    if tr == [] then None
    else match Last(tr)
      case UploadCreated(_, Created(u)) => Some(u)
      case _ => UploadOf(Init(tr))
  }

  /** The details the handler opened an upstream stream for. */
  function StreamOf(tr: seq<Event>): Option<Details> {
    if tr == [] then None
    else match Last(tr)
      case UpstreamOpened(d, true) => Some(d)
      case _ => StreamOf(Init(tr))
  }

  function Contacted(tr: seq<Event>): bool {
    exists i :: 0 <= i < |tr| && tr[i].UpstreamOpened?
  }

  /** The `k`-th call of the history went upstream, or is the one under way and does. */
  predicate UpstreamCall(pc: Pc, tr: seq<Event>, k: nat) {
    (k < |tr| && tr[k].UpstreamOpened?) || (k == |tr| && pc.Fetching? && !pc.upstream)
  }

  /** The stream was delivered to its end. */
  function Ended(tr: seq<Event>): bool {
    if tr == [] then false else Last(tr) == ChunkReceived(End) || Ended(Init(tr))
  }

  function BrokenOff(tr: seq<Event>): bool {
    if tr == [] then false else Last(tr) == ChunkReceived(Broken) || BrokenOff(Init(tr))
  }

  function AbortRequested(tr: seq<Event>): bool {
    if tr == [] then false else Last(tr).UploadAborted? || AbortRequested(Init(tr))
  }

  // ---------------------------------------------------------------- the part-cutting loop

  predicate AllFull(bodies: seq<Bytes>) {
    forall i :: 0 <= i < |bodies| ==> |bodies[i]| >= 10_485_760
  }

  predicate Numbered(parts: seq<CompletedPart>) {
    forall i :: 0 <= i < |parts| ==> parts[i].number == i + 1
  }

  /** The parts cut so far and the buffer account for every byte received, in order. */
  ghost predicate InProgress(parts: seq<CompletedPart>, bodies: seq<Bytes>, buffer: Bytes, received: Bytes) {
    && Concat(bodies) + buffer == received && AllFull(bodies)
    && |parts| == |bodies| && Numbered(parts)
  }

  /** A finished cut: the parts are the whole stream, numbered without gap, none empty, and all but
      the last large enough for the store. */
  ghost predicate WellCut(parts: seq<CompletedPart>, bodies: seq<Bytes>, received: Bytes) {
    && Concat(bodies) == received
    && |parts| == |bodies| && Numbered(parts)
    && (forall i :: 0 <= i < |bodies| ==> bodies[i] != [])
    && (forall i :: 0 <= i < |bodies| - 1 ==> |bodies[i]| >= 10_485_760)
  }

  ghost predicate Cut(pc: Pc, tr: seq<Event>) {
    match pc
    case Start(_) => Received(tr) == [] && Bodies(tr) == []
    case Fetching(_, _, _) => Received(tr) == [] && Bodies(tr) == []
    case Opening(_) => Received(tr) == [] && Bodies(tr) == []
    case Streaming(_, _, buffer, parts) =>
      InProgress(parts, Bodies(tr), buffer, Received(tr)) && |buffer| < 10_485_760
    case Uploading(_, _, buffer, parts, last) =>
      && InProgress(parts, Bodies(tr), buffer, Received(tr))
      && (if last then 0 < |buffer| else 10_485_760 <= |buffer|)
    case Completing(_, _, parts) => WellCut(parts, Bodies(tr), Received(tr))
    case Aborting(_, _) => true
    case Failed(_) => true
    case _ => Concat(Bodies(tr)) == Received(tr)
  }

  lemma ChunkAdded(parts: seq<CompletedPart>, bodies: seq<Bytes>, buffer: Bytes, received: Bytes, chunk: Bytes)
    requires InProgress(parts, bodies, buffer, received)
    ensures InProgress(parts, bodies, buffer + chunk, received + chunk)
  {
    assert Concat(bodies) + (buffer + chunk) == Concat(bodies) + buffer + chunk;
  }

  lemma PartAdded(parts: seq<CompletedPart>, bodies: seq<Bytes>, buffer: Bytes, received: Bytes, etag: string)
    requires InProgress(parts, bodies, buffer, received) && buffer != []
    ensures var parts' := parts + [CompletedPart(etag, |parts| + 1)];
      && WellCut(parts', bodies + [buffer], received)
      && (|buffer| >= 10_485_760 ==> InProgress(parts', bodies + [buffer], [], received))
  {
    ConcatSnoc(bodies, buffer);
    assert Concat(bodies + [buffer]) + [] == received;
  }

  /** For every stream, however it is chunked and whatever the calls answer. */
  lemma {:induction false} CuttingIsExact(prefix: string, v: Id, tr: seq<Event>)
    requires Run(prefix, Start(v), tr).Some?
    ensures Cut(Run(prefix, Start(v), tr).value, tr)
  {
    if tr != [] {
      CuttingIsExact(prefix, v, Init(tr));
      var pc := Run(prefix, Start(v), Init(tr)).value;
      if pc.Streaming? {
        ChunkKeepsCut(prefix, pc, tr);
      } else if pc.Uploading? {
        PartKeepsCut(prefix, pc, tr);
      }
    }
  }

  lemma ChunkKeepsCut(prefix: string, pc: Pc, tr: seq<Event>)
    requires tr != [] && pc.Streaming? && Cut(pc, Init(tr)) && Next(prefix, pc, Last(tr)).Some?
    ensures Cut(Next(prefix, pc, Last(tr)).value, tr)
  {
    var item, bodies, received := Last(tr).item, Bodies(Init(tr)), Received(Init(tr));
    assert Bodies(tr) == bodies;
    if item.Chunk? {
      ChunkAdded(pc.parts, bodies, pc.buffer, received, item.bytes);
    } else if pc.buffer == [] {
      assert Concat(bodies) + [] == Concat(bodies);
    }
  }

  lemma PartKeepsCut(prefix: string, pc: Pc, tr: seq<Event>)
    requires tr != [] && pc.Uploading? && Cut(pc, Init(tr)) && Next(prefix, pc, Last(tr)).Some?
    ensures Cut(Next(prefix, pc, Last(tr)).value, tr)
  {
    var part, bodies := Last(tr).part, Bodies(Init(tr));
    if part.Stored? {
      assert Bodies(tr) == bodies + [pc.buffer];
      PartAdded(pc.parts, bodies, pc.buffer, Received(Init(tr)), part.etag);
    }
  }

  /** The number of parts is the number of minimum-size pieces the stream fills, rounded up at most. */
  lemma PartCount(prefix: string, v: Id, tr: seq<Event>)
    requires Run(prefix, Start(v), tr).Some? && Run(prefix, Start(v), tr).value.Completing?
    ensures var n, total := |Run(prefix, Start(v), tr).value.parts|, |Received(tr)|;
      && (n == 0 <==> total == 0)
      && n <= (total + 10_485_759) / 10_485_760
  {
    CuttingIsExact(prefix, v, tr);
    var bodies := Bodies(tr);
    if bodies != [] {
      ConcatAtLeast(bodies[..|bodies| - 1], S3_MINIMUM_UPLOAD_CHUNK_BYTES);
      assert |Concat(bodies)| == |Concat(bodies[..|bodies| - 1])| + |bodies[|bodies| - 1]|;
    }
  }

  function BufferOf(pc: Pc): Bytes {
    match pc
    case Streaming(_, _, buffer, _) => buffer
    case Uploading(_, _, buffer, _, _) => buffer
    case _ => []
  }

  /** With chunks of at most 2 MiB and one byte, the buffer never outgrows the 12 MiB allocated for it. */
  lemma {:induction false} BufferStaysWithinAllocation(prefix: string, v: Id, tr: seq<Event>)
    requires Run(prefix, Start(v), tr).Some?
    requires forall i :: 0 <= i < |tr| && tr[i].ChunkReceived? && tr[i].item.Chunk? ==> |tr[i].item.bytes| <= 2_097_153
    ensures |BufferOf(Run(prefix, Start(v), tr).value)| <= 12_582_912
  {
    if tr != [] {
      BufferStaysWithinAllocation(prefix, v, Init(tr));
      CuttingIsExact(prefix, v, Init(tr));
    }
  }

  // ---------------------------------------------------------------- how a stash ends

  /** An abort is requested exactly when the upstream stream broke off, and nothing follows it. */
  lemma {:induction false} AbortIffBroken(prefix: string, v: Id, tr: seq<Event>)
    requires Run(prefix, Start(v), tr).Some?
    ensures var pc := Run(prefix, Start(v), tr).value;
      && (AbortRequested(tr) ==> BrokenOff(tr) && pc.Failed? && tr != [] && Last(tr).UploadAborted?)
      && (BrokenOff(tr) ==> AbortRequested(tr) || pc.Aborting?)
      && (pc.Aborting? ==> BrokenOff(tr) && !AbortRequested(tr))
  {
    if tr != [] {
      AbortIffBroken(prefix, v, Init(tr));
      BreaksMove(prefix, Run(prefix, Start(v), Init(tr)).value, tr);
    }
  }

  /** A stream breaks off while it is read, and an abort is the one call that follows. */
  lemma BreaksMove(prefix: string, before: Pc, tr: seq<Event>)
    requires tr != [] && Next(prefix, before, Last(tr)).Some?
    ensures var pc := Next(prefix, before, Last(tr)).value;
      && !before.Failed? && (pc.Aborting? <==> Last(tr) == ChunkReceived(Broken))
      && (before.Aborting? ==> Last(tr).UploadAborted? && pc.Failed?)
      && (Last(tr).UploadAborted? ==> before.Aborting?)
  {
  }

  /** A handler goes upstream once at most, counting a call still under way. */
  lemma {:induction false} OneUpstreamCall(prefix: string, v: Id, tr: seq<Event>)
    requires Run(prefix, Start(v), tr).Some?
    ensures var pc := Run(prefix, Start(v), tr).value;
      && (pc.Start? || (pc.Fetching? && !pc.upstream) ==> !Contacted(tr))
      && forall j, k :: UpstreamCall(pc, tr, j) && UpstreamCall(pc, tr, k) ==> j == k
  {
    if tr != [] {
      OneUpstreamCall(prefix, v, Init(tr));
      var before, pc := Run(prefix, Start(v), Init(tr)).value, Run(prefix, Start(v), tr).value;
      CallsMove(prefix, before, tr);
      forall k | 0 <= k < |tr| && tr[k].UpstreamOpened?
        ensures Contacted(Init(tr)) || k == |tr| - 1
        ensures k < |tr| - 1 ==> UpstreamCall(before, Init(tr), k)
      {
        assert k < |tr| - 1 ==> Init(tr)[k] == tr[k];
      }
    }
  }

  /** Upstream is called from one control point only, which is left by the answer. */
  lemma CallsMove(prefix: string, before: Pc, tr: seq<Event>)
    requires tr != [] && Next(prefix, before, Last(tr)).Some?
    ensures var pc := Next(prefix, before, Last(tr)).value;
      && (Last(tr).UpstreamOpened? ==> before.Fetching? && !before.upstream)
      && (pc.Fetching? && !pc.upstream ==>
            !Last(tr).UpstreamOpened? && (before.Start? || (before.Fetching? && !before.upstream)))
      && !pc.Start?
  {
  }

  /** What a failure status says: the row was not there, or upstream could not be opened, or anything else
      went wrong. */
  lemma StatusTells(prefix: string, v: Id, tr: seq<Event>)
    requires Run(prefix, Start(v), tr).Some? && Run(prefix, Start(v), tr).value.Failed?
    ensures tr != []
    ensures var status := Run(prefix, Start(v), tr).value.status;
      && (status.NotFound? <==> Last(tr) == RowRead(v, Ok(None)))
      && (status.BadGateway? <==> Last(tr).UpstreamOpened?)
  {
    if Run(prefix, Start(v), Init(tr)).value.Start? {
      HistoryKnown(prefix, v, Init(tr));
    }
  }

  /** The answer is a failure, or was asked for because of one. */
  predicate Faulty(e: Event) {
    match e
    case RowRead(_, row) => row.Err? || row.value.None?
    case IdAllocated(id) => id.None?
    case UpstreamOpened(_, ok) => !ok
    case UploadCreated(_, created) => !created.Created?
    case ChunkReceived(_) => false
    case PartUploaded(_, _, _, _, part) => !part.Stored?
    case UploadAborted(_, _, _) => true
    case UploadCompleted(_, _, _, ok) => !ok
    case RowUpdated(_, _, ok) => !ok
    case Presigned(_, ok) => !ok
  }

  /** A handler fails exactly when its last call did, and redirects exactly when its key was signed. */
  lemma EndsIff(prefix: string, v: Id, tr: seq<Event>)
    requires Run(prefix, Start(v), tr).Some?
    ensures var pc := Run(prefix, Start(v), tr).value;
      && (pc.Failed? <==> tr != [] && Faulty(Last(tr)))
      && (pc.Redirected? <==> tr != [] && Last(tr).Presigned? && Last(tr).ok)
  {
    if tr != [] {
      assert Next(prefix, Run(prefix, Start(v), Init(tr)).value, Last(tr)) == Run(prefix, Start(v), tr);
    }
  }

  /** The key a handler redirects to is the one that was signed, and names its artifact. */
  lemma RedirectIsSigned(prefix: string, v: Id, tr: seq<Event>, a: Artifact, key: string)
    requires Run(prefix, Start(v), tr) == Some(Redirected(a, key))
    ensures tr != [] && Last(tr) == Presigned(key, true) && Names(prefix, key, a.artifactId)
  {
    RedirectMove(prefix, Run(prefix, Start(v), Init(tr)).value, Last(tr), a, key);
    S3KeyNames(prefix, a.artifactId);
  }

  lemma RedirectMove(prefix: string, pc: Pc, e: Event, a: Artifact, key: string)
    requires Next(prefix, pc, e) == Some(Redirected(a, key))
    ensures e == Presigned(key, true) && key == S3Key(prefix, a.artifactId)
  {
  }

  /** What a control point knows about the handler's own history. */
  ghost predicate Knows(pc: Pc, v: Id, tr: seq<Event>) {
    match pc
    case Start(w) =>
      w == v && RowOf(tr).None? && IdOf(tr).None? && UploadOf(tr).None? && StreamOf(tr).None? && !Ended(tr)
    case Fetching(d, id, upstream) =>
      && d.versionId == v && d.artifactId.None? && RowOf(tr) == Some(d)
      && IdOf(tr) == id && UploadOf(tr).None? && !Ended(tr)
      && StreamOf(tr) == if upstream then Some(d) else None
    case Opening(a) => Fetched(a, v, tr) && UploadOf(tr).None? && !Ended(tr)
    case Streaming(a, u, _, _) => Fetched(a, v, tr) && UploadOf(tr) == Some(u) && !Ended(tr)
    case Uploading(a, u, _, _, last) => Fetched(a, v, tr) && UploadOf(tr) == Some(u) && Ended(tr) == last
    case Aborting(a, u) => Fetched(a, v, tr) && UploadOf(tr) == Some(u) && !Ended(tr)
    case Completing(a, u, _) => Fetched(a, v, tr) && UploadOf(tr) == Some(u) && Ended(tr)
    case Recording(a) => Fetched(a, v, tr) && Ended(tr)
    case Presigning(a) => Obtained(a, v, tr)
    case Redirected(a, _) => Obtained(a, v, tr)
    case Failed(_) => true
  }

  /** The handler holds the id it allocated and a stream it opened for this very artifact. */
  ghost predicate Fetched(a: Artifact, v: Id, tr: seq<Event>) {
    && a.versionId == v && IdOf(tr) == Some(a.artifactId)
    && StreamOf(tr) == Some(Details(a.versionId, a.provider, a.tuple, None)) && RowOf(tr) == StreamOf(tr)
  }

  /** The artifact was found recorded, with no contact upstream, or fetched by this handler to the end. */
  ghost predicate Obtained(a: Artifact, v: Id, tr: seq<Event>) {
    && a.versionId == v
    && ((RowOf(tr) == Some(Details(v, a.provider, a.tuple, Some(a.artifactId)))
         && IdOf(tr).None? && StreamOf(tr).None?)
        || (Fetched(a, v, tr) && Ended(tr)))
  }

  lemma {:induction false} HistoryKnown(prefix: string, v: Id, tr: seq<Event>)
    requires Run(prefix, Start(v), tr).Some?
    ensures Knows(Run(prefix, Start(v), tr).value, v, tr)
  {
    if tr != [] {
      HistoryKnown(prefix, v, Init(tr));
      var pc := Run(prefix, Start(v), Init(tr)).value;
      if pc.Start? || pc.Fetching? {
        FetchingKnown(prefix, pc, v, tr);
      } else {
        StashingKnown(prefix, pc, v, tr);
      }
    }
  }

  lemma FetchingKnown(prefix: string, pc: Pc, v: Id, tr: seq<Event>)
    requires tr != [] && Knows(pc, v, Init(tr)) && Next(prefix, pc, Last(tr)).Some?
    requires pc.Start? || pc.Fetching?
    ensures Knows(Next(prefix, pc, Last(tr)).value, v, tr)
  {
  }

  lemma StashingKnown(prefix: string, pc: Pc, v: Id, tr: seq<Event>)
    requires tr != [] && Knows(pc, v, Init(tr)) && Next(prefix, pc, Last(tr)).Some?
    requires !pc.Start? && !pc.Fetching?
    ensures Knows(Next(prefix, pc, Last(tr)).value, v, tr)
  {
  }
}
