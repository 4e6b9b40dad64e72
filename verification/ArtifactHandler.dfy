/** The artifact handler as it runs: its external services answer anything they like, and every run
    is shown to be a history of the program of module ArtifactProgram. */
module ArtifactHandler {
  import opened Basics
  import opened Decimal
  import opened Catalogue
  import opened ArtifactProgram

  /** The database, the object store and the upstream registry as one handler meets them.  Every
      answer is unconstrained; `events` records the calls and their answers. */
  class Services {
    var events: seq<Event>
    var feed: seq<Item>

    constructor ()
      ensures events == []
    {
      events := [];
      feed := [];
    }

    method ReadRow(versionId: Id) returns (row: Result<Option<Details>, DbError>)
      modifies this`events
      ensures events == old(events) + [RowRead(versionId, row)]
      ensures row.Ok? && row.value.Some? ==> row.value.value.versionId == versionId
    {
      row := *;
      if row.Ok? && row.value.Some? && row.value.value.versionId != versionId {
        row := Ok(None);
      }
      events := events + [RowRead(versionId, row)];
    }

    method AllocateArtifactId() returns (id: Option<Id>)
      modifies this`events
      ensures events == old(events) + [IdAllocated(id)]
    {
      id := *;
      events := events + [IdAllocated(id)];
    }

    /** Opens a stream whose items are whatever upstream will send, finitely many. */
    method GetUpstream(details: Details) returns (ok: bool)
      modifies this
      ensures events == old(events) + [UpstreamOpened(details, ok)]
    {
      ok, feed := *, *;
      events := events + [UpstreamOpened(details, ok)];
    }

    method NextItem() returns (item: Item)
      modifies this
      ensures events == old(events) + [ChunkReceived(item)]
      ensures item.End? || |feed| < |old(feed)|
    {
      if feed == [] {
        item := End;
      } else {
        item, feed := feed[0], feed[1..];
      }
      events := events + [ChunkReceived(item)];
    }

    method CreateMultipartUpload(key: string) returns (answer: CreateAnswer)
      modifies this`events
      ensures events == old(events) + [UploadCreated(key, answer)]
    {
      answer := *;
      events := events + [UploadCreated(key, answer)];
    }

    method UploadPart(key: string, uploadId: string, body: Bytes, number: nat) returns (answer: PartAnswer)
      modifies this`events
      ensures events == old(events) + [PartUploaded(key, uploadId, number, body, answer)]
    {
      answer := *;
      events := events + [PartUploaded(key, uploadId, number, body, answer)];
    }

    method AbortMultipartUpload(key: string, uploadId: string) returns (ok: bool)
      modifies this`events
      ensures events == old(events) + [UploadAborted(key, uploadId, ok)]
    {
      ok := *;
      events := events + [UploadAborted(key, uploadId, ok)];
    }

    method CompleteMultipartUpload(key: string, uploadId: string, parts: seq<CompletedPart>) returns (ok: bool)
      modifies this`events
      ensures events == old(events) + [UploadCompleted(key, uploadId, parts, ok)]
    {
      ok := *;
      events := events + [UploadCompleted(key, uploadId, parts, ok)];
    }

    method StoreArtifactInDatabase(artifact: Artifact) returns (ok: bool)
      modifies this`events
      ensures events == old(events) + [RowUpdated(artifact.artifactId, artifact.versionId, ok)]
    {
      ok := *;
      events := events + [RowUpdated(artifact.artifactId, artifact.versionId, ok)];
    }

    method Presign(key: string) returns (ok: bool)
      modifies this`events
      ensures events == old(events) + [Presigned(key, ok)]
    {
      ok := *;
      events := events + [Presigned(key, ok)];
    }
  }

  /** The handler's history so far has brought it to `pc`. */
  ghost predicate At(s: Services, prefix: string, v: Id, pc: Pc)
    reads s
  {
    Run(prefix, Start(v), s.events) == Some(pc)
  }

  method ToS3Key(artifact: Artifact, prefix: string) returns (key: string)
    ensures key == S3Key(prefix, artifact.artifactId)
    ensures prefix <= key && |key| >= |prefix| + 10 && key[|prefix|..|prefix| + 10] == "artifacts/"
    ensures ParseI64(key[|prefix| + 10..]) == Some(artifact.artifactId)
  {
    S3KeyNames(prefix, artifact.artifactId);
    key := prefix;
    key := key + "artifacts/";
    key := key + ToString(artifact.artifactId);
  }

  /** At the end of the stream the parts and the rest in the buffer are exactly what was received. */
  lemma NothingLost(prefix: string, v: Id, tr: seq<Event>, a: Artifact, u: string, buffer: Bytes,
                    parts: seq<CompletedPart>)
    requires Run(prefix, Start(v), tr)
             == Some(if buffer != [] then Uploading(a, u, buffer, parts, true) else Completing(a, u, parts))
    requires tr != [] && Run(prefix, Start(v), Init(tr)) == Some(Streaming(a, u, buffer, parts))
    requires Last(tr) == ChunkReceived(End)
    ensures InProgress(parts, Bodies(tr), buffer, Received(tr))
  {
    CuttingIsExact(prefix, v, Init(tr));
  }

  /** A stashed artifact is, part for part, what upstream delivered. */
  lemma StashedIsReceived(prefix: string, v: Id, tr: seq<Event>)
    requires Run(prefix, Start(v), tr).Some? && Run(prefix, Start(v), tr).value.Presigning?
    ensures Concat(Bodies(tr)) == Received(tr)
  {
    CuttingIsExact(prefix, v, tr);
  }

  /** Waits for the next item of the stream. */
  method NextPiece(s: Services, prefix: string, ghost v: Id, artifact: Artifact, uploadId: string,
                   ghost buffer: Bytes, ghost parts: seq<CompletedPart>) returns (item: Item)
    requires At(s, prefix, v, Streaming(artifact, uploadId, buffer, parts))
    modifies s
    ensures item.End? || |s.feed| < |old(s.feed)|
    ensures item.Chunk? ==>
              var filled := buffer + item.bytes;
              At(s, prefix, v, if |filled| < S3_MINIMUM_UPLOAD_CHUNK_BYTES
                               then Streaming(artifact, uploadId, filled, parts)
                               else Uploading(artifact, uploadId, filled, parts, false))
    ensures item.Broken? ==> At(s, prefix, v, Aborting(artifact, uploadId))
    ensures item.End? ==> At(s, prefix, v, if buffer != [] then Uploading(artifact, uploadId, buffer, parts, true)
                                           else Completing(artifact, uploadId, parts))
    ensures item.End? ==> InProgress(parts, Bodies(s.events), buffer, Received(s.events))
  {
    ghost var h := s.events;
    item := s.NextItem();
    RunSnoc(prefix, Start(v), h, ChunkReceived(item));
    if item.End? {
      assert Init(s.events) == h;
      NothingLost(prefix, v, s.events, artifact, uploadId, buffer, parts);
    }
  }

  /** Sends the buffer out as the next part. */
  method SendPart(s: Services, prefix: string, ghost v: Id, artifact: Artifact, key: string, uploadId: string,
                  body: Bytes, parts: seq<CompletedPart>, partNumber: nat, ghost last: bool)
    returns (part: PartAnswer)
    requires key == S3Key(prefix, artifact.artifactId) && partNumber == |parts| + 1
    requires At(s, prefix, v, Uploading(artifact, uploadId, body, parts, last))
    modifies s`events
    ensures !part.Stored? ==> At(s, prefix, v, Failed(InternalServerError))
    ensures part.Stored? ==>
              var sent := parts + [CompletedPart(part.etag, partNumber)];
              At(s, prefix, v, if last then Completing(artifact, uploadId, sent)
                               else Streaming(artifact, uploadId, [], sent))
  {
    ghost var h := s.events;
    part := s.UploadPart(key, uploadId, body, partNumber);
    RunSnoc(prefix, Start(v), h, PartUploaded(key, uploadId, partNumber, body, part));
  }

  /** Aborts the upload of a broken stream; whether that succeeds makes no difference to the answer. */
  method GiveUp(s: Services, prefix: string, ghost v: Id, artifact: Artifact, key: string, uploadId: string)
    requires key == S3Key(prefix, artifact.artifactId)
    requires At(s, prefix, v, Aborting(artifact, uploadId))
    modifies s`events
    ensures At(s, prefix, v, Failed(InternalServerError))
  {
    ghost var h := s.events;
    var aborted := s.AbortMultipartUpload(key, uploadId);
    RunSnoc(prefix, Start(v), h, UploadAborted(key, uploadId, aborted));
  }

  /** Reads the stream to its end, sending the buffer out as a part whenever it is large enough.
      What the stream left in the buffer is not sent yet. */
  method CutStream(s: Services, prefix: string, ghost v: Id, artifact: Artifact, key: string, uploadId: string)
    returns (ok: bool, uploadBuffer: Bytes, uploadParts: seq<CompletedPart>, partNumber: nat)
    requires key == S3Key(prefix, artifact.artifactId)
    requires At(s, prefix, v, Streaming(artifact, uploadId, [], []))
    modifies s
    ensures !ok ==> At(s, prefix, v, Failed(InternalServerError))
    ensures ok ==> partNumber == |uploadParts| + 1
    ensures ok ==> At(s, prefix, v, if uploadBuffer != []
                                    then Uploading(artifact, uploadId, uploadBuffer, uploadParts, true)
                                    else Completing(artifact, uploadId, uploadParts))
    ensures ok ==> InProgress(uploadParts, Bodies(s.events), uploadBuffer, Received(s.events))
  {
    uploadBuffer, uploadParts, partNumber := [], [], 1;
    while true
      invariant At(s, prefix, v, Streaming(artifact, uploadId, uploadBuffer, uploadParts))
      invariant partNumber == |uploadParts| + 1
      decreases |s.feed|
    {
      var item := NextPiece(s, prefix, v, artifact, uploadId, uploadBuffer, uploadParts);
      match item {
        case Chunk(bytes) =>
          uploadBuffer := uploadBuffer + bytes;
          if |uploadBuffer| < S3_MINIMUM_UPLOAD_CHUNK_BYTES {
            continue;
          }
          // The buffer is large enough to be a part.
          var part := SendPart(s, prefix, v, artifact, key, uploadId, uploadBuffer, uploadParts, partNumber, false);
          if !part.Stored? {
            ok := false;
            return;
          }
          uploadParts := uploadParts + [CompletedPart(part.etag, partNumber)];
          partNumber := partNumber + 1;
          uploadBuffer := [];
        case Broken =>
          // There will be no more of the stream: the upload is given up.
          GiveUp(s, prefix, v, artifact, key, uploadId);
          ok := false;
          return;
        case End =>
          ok := true;
          return;
      }
    }
  }

  /** Streams upstream bytes into the store in parts, completes the upload and records the artifact. */
  method StashArtifact(s: Services, prefix: string, ghost v: Id, artifact: Artifact) returns (ok: bool)
    requires At(s, prefix, v, Opening(artifact))
    modifies s
    ensures At(s, prefix, v, if ok then Presigning(artifact) else Failed(InternalServerError))
    ensures ok ==> Concat(Bodies(s.events)) == Received(s.events)
  {
    var key := ToS3Key(artifact, prefix);
    ghost var h := s.events;
    var created := s.CreateMultipartUpload(key);
    RunSnoc(prefix, Start(v), h, UploadCreated(key, created));
    if !created.Created? {
      return false;
    }
    var uploadId := created.uploadId;
    var streamed, uploadBuffer, uploadParts, partNumber := CutStream(s, prefix, v, artifact, key, uploadId);
    if !streamed {
      return false;
    }
    ok := FinishUpload(s, prefix, v, artifact, key, uploadId, uploadBuffer, uploadParts, partNumber);
    if ok {
      StashedIsReceived(prefix, v, s.events);
    }
  }

  /** What follows the end of the stream: the remaining part, completion, the row update. */
  method FinishUpload(s: Services, prefix: string, ghost v: Id, artifact: Artifact, key: string, uploadId: string,
                      uploadBuffer: Bytes, streamedParts: seq<CompletedPart>, partNumber: nat)
    returns (ok: bool)
    requires key == S3Key(prefix, artifact.artifactId) && partNumber == |streamedParts| + 1
    requires At(s, prefix, v, if uploadBuffer != []
                              then Uploading(artifact, uploadId, uploadBuffer, streamedParts, true)
                              else Completing(artifact, uploadId, streamedParts))
    modifies s
    ensures At(s, prefix, v, if ok then Presigning(artifact) else Failed(InternalServerError))
  {
    var uploadParts := streamedParts;
    // What is left of the stream is the last part, of any size but empty.
    if uploadBuffer != [] {
      var part := SendPart(s, prefix, v, artifact, key, uploadId, uploadBuffer, uploadParts, partNumber, true);
      if !part.Stored? {
        return false;
      }
      uploadParts := uploadParts + [CompletedPart(part.etag, partNumber)];
    }
    ok := CompleteAndRecord(s, prefix, v, artifact, key, uploadId, uploadParts);
  }

  /** The upload is completed with its parts, and if that succeeds the artifact is recorded. */
  method CompleteAndRecord(s: Services, prefix: string, ghost v: Id, artifact: Artifact, key: string,
                           uploadId: string, uploadParts: seq<CompletedPart>)
    returns (ok: bool)
    requires key == S3Key(prefix, artifact.artifactId)
    requires At(s, prefix, v, Completing(artifact, uploadId, uploadParts))
    modifies s
    ensures At(s, prefix, v, if ok then Presigning(artifact) else Failed(InternalServerError))
  {
    ghost var h := s.events;
    ok := s.CompleteMultipartUpload(key, uploadId, uploadParts);
    RunSnoc(prefix, Start(v), h, UploadCompleted(key, uploadId, uploadParts, ok));
    if ok {
      h := s.events;
      ok := s.StoreArtifactInDatabase(artifact);
      RunSnoc(prefix, Start(v), h, RowUpdated(artifact.artifactId, artifact.versionId, ok));
    }
  }

  /** The id whose object answers the request: the one on record, or else the one just allocated. */
  function AnsweredId(tr: seq<Event>): Option<Id> {
    if RowOf(tr).Some? && RowOf(tr).value.artifactId.Some? then RowOf(tr).value.artifactId else IdOf(tr)
  }

  /** What a finished history answers. */
  ghost predicate AnswerTells(prefix: string, v: Id, tr: seq<Event>, r: Result<string, Status>) {
    && tr != []
    && (r == Err(NotFound) <==> Last(tr) == RowRead(v, Ok(None)))
    && (r == Err(BadGateway) <==> Last(tr).UpstreamOpened? && !Last(tr).ok)
    && (r.Err? <==> Faulty(Last(tr)))
    && (r.Ok? ==> Last(tr) == Presigned(r.value, true))
    && (r.Ok? ==> AnsweredId(tr).Some? && Names(prefix, r.value, AnsweredId(tr).value))
  }

  lemma FailureAnswers(prefix: string, v: Id, tr: seq<Event>, status: Status)
    requires Run(prefix, Start(v), tr) == Some(Failed(status))
    ensures AnswerTells(prefix, v, tr, Err(status))
  {
    EndsIff(prefix, v, tr);
    StatusTells(prefix, v, tr);
    assert Last(tr).UpstreamOpened? ==> (Faulty(Last(tr)) <==> !Last(tr).ok);
  }

  lemma RedirectAnswers(prefix: string, v: Id, tr: seq<Event>, a: Artifact, key: string)
    requires Run(prefix, Start(v), tr) == Some(Redirected(a, key))
    ensures AnswerTells(prefix, v, tr, Ok(key))
  {
    RedirectIsSigned(prefix, v, tr, a, key);
    HistoryKnown(prefix, v, tr);
  }

  /** Answers a request for an artifact: the key of the object to redirect to, or an error status. */
  method ArtifactsHandler(s: Services, prefix: string, versionId: Id) returns (r: Result<string, Status>)
    requires s.events == []
    modifies s
    ensures r.Err? ==> At(s, prefix, versionId, Failed(r.error))
    ensures r.Ok? ==>
              exists a :: At(s, prefix, versionId, Redirected(a, r.value)) && r.value == S3Key(prefix, a.artifactId)
    ensures AnswerTells(prefix, versionId, s.events, r)
  {
    var obtained := ObtainArtifact(s, prefix, versionId);
    match obtained {
      case Err(status) =>
        r := Err(status);
        FailureAnswers(prefix, versionId, s.events, status);
      case Ok(artifact) =>
        r := PresignRequest(s, prefix, versionId, artifact);
    }
  }

  /** The artifact of a version row: the one on record, or one fetched for this request. */
  method ObtainArtifact(s: Services, prefix: string, versionId: Id) returns (r: Result<Artifact, Status>)
    requires s.events == []
    modifies s
    ensures At(s, prefix, versionId, match r case Ok(a) => Presigning(a) case Err(status) => Failed(status))
  {
    ghost var h := s.events;
    var found := s.ReadRow(versionId);
    RunSnoc(prefix, Start(versionId), h, RowRead(versionId, found));
    var details: Details;
    match found {
      case Err(_) => return Err(InternalServerError);
      case Ok(None) => return Err(NotFound);
      case Ok(Some(d)) => details := d;
    }
    var artifact: Artifact;
    match details.artifactId {
      case Some(id) =>
        artifact := ArtifactOf(details, id);
      case None =>
        var joined := FetchAndAllocate(s, prefix, versionId, details);
        match joined {
          case Err(status) => return Err(status);
          case Ok(id) => artifact := ArtifactOf(details, id);
        }
        var ok := StashArtifact(s, prefix, versionId, artifact);
        if !ok {
          return Err(InternalServerError);
        }
    }
    r := Ok(artifact);
  }

  /** Names the object of an artifact to the client; with that the request is answered. */
  method PresignRequest(s: Services, prefix: string, ghost v: Id, artifact: Artifact)
    returns (r: Result<string, Status>)
    requires At(s, prefix, v, Presigning(artifact))
    modifies s
    ensures r.Err? ==> At(s, prefix, v, Failed(r.error))
    ensures r.Ok? ==> r.value == S3Key(prefix, artifact.artifactId) && At(s, prefix, v, Redirected(artifact, r.value))
    ensures AnswerTells(prefix, v, s.events, r)
  {
    var key := ToS3Key(artifact, prefix);
    ghost var h := s.events;
    var presigned := s.Presign(key);
    RunSnoc(prefix, Start(v), h, Presigned(key, presigned));
    if !presigned {
      FailureAnswers(prefix, v, s.events, InternalServerError);
      return Err(InternalServerError);
    }
    RedirectAnswers(prefix, v, s.events, artifact, key);
    r := Ok(key);
  }

  /** The joined pair of calls: whichever answers first, the first failure ends both. */
  method FetchAndAllocate(s: Services, prefix: string, v: Id, details: Details) returns (r: Result<Id, Status>)
    requires At(s, prefix, v, Fetching(details, None, false))
    modifies s
    ensures At(s, prefix, v, match r case Ok(id) => Opening(ArtifactOf(details, id)) case Err(status) => Failed(status))
  {
    ghost var h := s.events;
    var allocateFirst: bool := *;
    if allocateFirst {
      var id := s.AllocateArtifactId();
      RunSnoc(prefix, Start(v), h, IdAllocated(id));
      if id.None? {
        return Err(InternalServerError);
      }
      h := s.events;
      var ok := s.GetUpstream(details);
      RunSnoc(prefix, Start(v), h, UpstreamOpened(details, ok));
      return if ok then Ok(id.value) else Err(BadGateway);
    } else {
      var ok := s.GetUpstream(details);
      RunSnoc(prefix, Start(v), h, UpstreamOpened(details, ok));
      if !ok {
        return Err(BadGateway);
      }
      h := s.events;
      var id := s.AllocateArtifactId();
      RunSnoc(prefix, Start(v), h, IdAllocated(id));
      return if id.Some? then Ok(id.value) else Err(InternalServerError);
    }
  }
}
