/** What a failure leaves possible: which handlers can still end in a redirect, and that a new request
    for a row always can, however many earlier ones failed on it. */
module Recovery {
  import opened Basics
  import opened Decimal
  import opened Catalogue
  import opened Mirror
  import AP = ArtifactProgram
  import AC = ArtifactCache
  import AT = ArtifactTheorems

  /** The handler still has to allocate an id. */
  predicate NeedsId(t: Tables, pc: AP.Pc) {
    match pc
    case Start(v) => v in t.versions && t.versions[v].artifactId.None?
    case Fetching(_, id, _) => id.None?
    case _ => false
  }

  /** Ids are left, if the handler needs one. */
  predicate Supplied(s: AC.State, pc: AP.Pc) {
    NeedsId(s.tables, pc) ==> s.cache.nextId <= I64_MAX
  }

  /** The handler was dropped or refused, lost its upstream stream, or holds an upload without parts,
      which the store does not complete. */
  predicate Doomed(f: AC.Fill) {
    || (!f.live && !f.pc.Redirected?)
    || f.pc.Failed? || f.pc.Aborting?
    || (f.pc.Completing? && f.pc.parts == [])
  }

  /** How many answers handler `pc` still needs at best. */
  function Needed(pc: AP.Pc): nat {
    match pc
    case Start(_) => 11
    case Fetching(_, id, upstream) => 8 + (if id.None? then 1 else 0) + (if upstream then 0 else 1)
    case Opening(_) => 7
    case Streaming(_, _, buffer, parts) => if buffer != [] then 5 else if parts != [] then 4 else 6
    case Uploading(_, _, _, _, last) => if last then 4 else 5
    case Completing(_, _, _) => 3
    case Recording(_) => 2
    case Presigning(_) => 1
    case _ => 0
  }

  /** The handler waits for something: a joined fetch moves on as soon as both halves have answered. */
  lemma {:induction false} FetchStillWaits(prefix: string, v: Id, tr: seq<AP.Event>)
    requires AP.Run(prefix, AP.Start(v), tr).Some?
    ensures var pc := AP.Run(prefix, AP.Start(v), tr).value; pc.Fetching? ==> pc.id.None? || !pc.upstream
  {
    if tr != [] {
      FetchStillWaits(prefix, v, Init(tr));
    }
  }

  ghost function Longest(names: set<string>): nat
  {
    if names == {} then 0
    else
      var n :| n in names;
      if |n| > Longest(names - {n}) then |n| else Longest(names - {n})
  }

  lemma {:induction false} LongestBounds(names: set<string>, n: string)
    requires n in names
    ensures |n| <= Longest(names)
  {
    var m :| m in names && Longest(names) == if |m| > Longest(names - {m}) then |m| else Longest(names - {m});
    if n != m {
      LongestBounds(names - {m}, n);
    }
  }

  lemma FreshName(names: set<string>) returns (n: string)
    ensures n !in names
  {
    n := seq(Longest(names) + 1, _ => 'u');
    if n in names {
      LongestBounds(names, n);
    }
  }

  /** After answer `e` the handler is closer to its redirect and still not doomed. */
  ghost predicate GoodAnswer(s: AC.State, h: nat, e: AP.Event) {
    && h in s.cache.fills && AC.DoAnswer(s, h, e, 0).Some?
    && var s' := AC.DoAnswer(s, h, e, 0).value; var pc, f' := s.cache.fills[h].pc, s'.cache.fills[h];
       !Doomed(f') && Supplied(s', f'.pc) && !f'.pc.Start? && Needed(f'.pc) < Needed(pc)
  }

  lemma ReadCanMove(s: AC.State, h: nat) returns (e: AP.Event)
    requires Constraints(s.tables) && h in s.cache.fills && s.cache.fills[h].live
    requires s.cache.fills[h].pc.Start? && s.cache.fills[h].pc.versionId in s.tables.versions
    requires Supplied(s, s.cache.fills[h].pc)
    ensures GoodAnswer(s, h, e)
  {
    var v := s.cache.fills[h].pc.versionId;
    e := AP.RowRead(v, Ok(AC.Lookup(s.tables, v)));
  }

  lemma FetchCanMove(s: AC.State, h: nat) returns (e: AP.Event)
    requires AC.Inv(s) && h in s.cache.fills && s.cache.fills[h].live
    requires s.cache.fills[h].pc.Fetching? && Supplied(s, s.cache.fills[h].pc)
    ensures GoodAnswer(s, h, e)
  {
    var f := s.cache.fills[h];
    assert AC.FillInv(s.tables, s.cache, h, f);
    FetchStillWaits(s.cache.prefix, f.versionId, f.trace);
    e := if f.pc.upstream then AP.IdAllocated(Some(s.cache.nextId)) else AP.UpstreamOpened(f.pc.details, true);
  }

  /** Opening the upload, streaming into it and presigning can succeed. */
  lemma StreamCanMove(s: AC.State, h: nat) returns (e: AP.Event)
    requires h in s.cache.fills && s.cache.fills[h].live
    requires s.cache.fills[h].pc.Opening? || s.cache.fills[h].pc.Streaming? || s.cache.fills[h].pc.Presigning?
    ensures GoodAnswer(s, h, e)
  {
    match s.cache.fills[h].pc
    case Opening(a) =>
      var u := FreshName(s.cache.bucket.issued);
      e := AP.UploadCreated(AP.S3Key(s.cache.prefix, a.artifactId), AP.Created(u));
    case Streaming(_, _, buffer, parts) =>
      e := AP.ChunkReceived(if buffer == [] && parts == [] then AP.Chunk([0]) else AP.End);
    case Presigning(a) =>
      e := AP.Presigned(AP.S3Key(s.cache.prefix, a.artifactId), true);
  }

  /** An upload in hand is still open, so the store accepts its next part. */
  lemma PartCanMove(s: AC.State, h: nat) returns (e: AP.Event)
    requires h in s.cache.fills && AC.FillInv(s.tables, s.cache, h, s.cache.fills[h])
    requires s.cache.fills[h].live && s.cache.fills[h].pc.Uploading?
    ensures GoodAnswer(s, h, e)
  {
    var pc := s.cache.fills[h].pc;
    e := AP.PartUploaded(AP.S3Key(s.cache.prefix, pc.artifact.artifactId), pc.uploadId, |pc.parts| + 1, pc.buffer,
                         AP.Stored(""));
  }

  /** The store holds every listed part, so it completes an upload that has any. */
  lemma CompletionCanMove(s: AC.State, h: nat) returns (e: AP.Event)
    requires h in s.cache.fills && AC.FillInv(s.tables, s.cache, h, s.cache.fills[h])
    requires s.cache.fills[h].live && s.cache.fills[h].pc.Completing? && s.cache.fills[h].pc.parts != []
    ensures GoodAnswer(s, h, e)
  {
    var pc := s.cache.fills[h].pc;
    CompletionAccepted(s, h);
    AcceptedIsGood(s, h);
    e := AP.UploadCompleted(AP.S3Key(s.cache.prefix, pc.artifact.artifactId), pc.uploadId, pc.parts, true);
  }

  lemma AcceptedIsGood(s: AC.State, h: nat)
    requires h in s.cache.fills && s.cache.fills[h].live && s.cache.fills[h].pc.Completing?
    requires AC.Effect(s, h, AC.Outstanding(s.cache.prefix, s.cache.fills[h].pc).value, "", 0).Some?
    ensures var pc := s.cache.fills[h].pc;
      GoodAnswer(s, h,
                 AP.UploadCompleted(AP.S3Key(s.cache.prefix, pc.artifact.artifactId), pc.uploadId, pc.parts, true))
  {
  }

  lemma CompletionAccepted(s: AC.State, h: nat)
    requires h in s.cache.fills && AC.FillInv(s.tables, s.cache, h, s.cache.fills[h])
    requires s.cache.fills[h].live && s.cache.fills[h].pc.Completing? && s.cache.fills[h].pc.parts != []
    ensures AC.Effect(s, h, AC.Outstanding(s.cache.prefix, s.cache.fills[h].pc).value, "", 0).Some?
  {
    var f := s.cache.fills[h];
    AP.CuttingIsExact(s.cache.prefix, f.versionId, f.trace);
    AC.AssembleHeld(s.cache.bucket, AP.S3Key(s.cache.prefix, f.pc.artifact.artifactId), f.pc.uploadId, f.pc.parts,
                    AP.Bodies(f.trace));
  }

  /** The database never refuses the row update. */
  lemma UpdateCanMove(s: AC.State, h: nat) returns (e: AP.Event)
    requires AC.Inv(s) && h in s.cache.fills && s.cache.fills[h].live && s.cache.fills[h].pc.Recording?
    ensures GoodAnswer(s, h, e)
  {
    var a := s.cache.fills[h].pc.artifact;
    AT.PendingIsOutstanding(s, h);
    AC.UpdateNeverRefused(s, h, AC.UpdateRow(a), "", 0);
    e := AP.RowUpdated(a.artifactId, a.versionId, true);
  }

  /** A handler that is not doomed always has an answer that brings it closer. */
  lemma CanMove(s: AC.State, h: nat) returns (e: AP.Event)
    requires AC.Inv(s) && h in s.cache.fills && !Doomed(s.cache.fills[h]) && !s.cache.fills[h].pc.Redirected?
    requires Supplied(s, s.cache.fills[h].pc)
    requires s.cache.fills[h].pc.Start? ==> s.cache.fills[h].pc.versionId in s.tables.versions
    ensures GoodAnswer(s, h, e)
  {
    var pc := s.cache.fills[h].pc;
    assert AC.FillInv(s.tables, s.cache, h, s.cache.fills[h]);
    match pc
    case Start(_) => e := ReadCanMove(s, h);
    case Fetching(_, _, _) => e := FetchCanMove(s, h);
    case Uploading(_, _, _, _, _) => e := PartCanMove(s, h);
    case Completing(_, _, _) => e := CompletionCanMove(s, h);
    case Recording(_) => e := UpdateCanMove(s, h);
    case _ => e := StreamCanMove(s, h);
  }

  // ---------------------------------------------------------------- runs

  /** Only the handler's own calls are answered. */
  predicate OnlyAnswers(steps: seq<Step>, h: nat) {
    forall k :: 0 <= k < |steps| ==> steps[k].Artifact? && steps[k].a.Answer? && steps[k].a.h == h
  }

  /** The handler's own calls alone take it to a redirect. */
  ghost predicate Finishes(w: World, steps: seq<Step>, w': World, h: nat) {
    && Leads(w, steps, w') && OnlyAnswers(steps, h)
    && h in w'.shared.cache.fills && w'.shared.cache.fills[h].pc.Redirected?
  }

  lemma CanFinish(w: World, h: nat) returns (steps: seq<Step>, w': World)
    requires Inv(w) && h in w.shared.cache.fills && !Doomed(w.shared.cache.fills[h])
    requires Supplied(w.shared, w.shared.cache.fills[h].pc)
    requires var pc := w.shared.cache.fills[h].pc; pc.Start? ==> pc.versionId in w.shared.tables.versions
    ensures Finishes(w, steps, w', h)
    decreases Needed(w.shared.cache.fills[h].pc)
  {
    if w.shared.cache.fills[h].pc.Redirected? {
      steps, w' := [], w;
    } else {
      var step, mid := MoveOn(w, h);
      steps, w' := CanFinish(mid, h);
      OneMore(w, step, mid, steps, w', h);
      steps := [step] + steps;
    }
  }

  lemma OneMore(w: World, step: Step, mid: World, steps: seq<Step>, w': World, h: nat)
    requires Do(w, step) == Some(mid) && step.Artifact? && step.a.Answer? && step.a.h == h
    requires Finishes(mid, steps, w', h)
    ensures Finishes(w, [step] + steps, w', h)
  {
    Prepend(w, step, mid, steps, w');
  }

  lemma MoveOn(w: World, h: nat) returns (step: Step, mid: World)
    requires Inv(w) && h in w.shared.cache.fills && !Doomed(w.shared.cache.fills[h])
    requires !w.shared.cache.fills[h].pc.Redirected?
    requires Supplied(w.shared, w.shared.cache.fills[h].pc)
    requires var pc := w.shared.cache.fills[h].pc; pc.Start? ==> pc.versionId in w.shared.tables.versions
    ensures step.Artifact? && step.a.Answer? && step.a.h == h && Do(w, step) == Some(mid)
    ensures Inv(mid) && h in mid.shared.cache.fills && !Doomed(mid.shared.cache.fills[h])
    ensures var pc := mid.shared.cache.fills[h].pc;
      Supplied(mid.shared, pc) && !pc.Start? && Needed(pc) < Needed(w.shared.cache.fills[h].pc)
  {
    var e := CanMove(w.shared, h);
    step, mid := Artifact(AC.Answer(h, e, 0)), w.(shared := AC.DoAnswer(w.shared, h, e, 0).value);
    assert Do(w, step) == Some(mid);
    StepInv(w, step);
  }

  lemma Prepend(w: World, step: Step, mid: World, steps: seq<Step>, w': World)
    requires Do(w, step) == Some(mid) && Leads(mid, steps, w')
    ensures Leads(w, [step] + steps, w')
  {
    assert [step][..0] == [];
    ExecAppend(w, [step], steps);
  }

  lemma DoomedStays(s: AC.State, step: AC.Step, h: nat)
    requires AC.Do(s, step).Some? && h in s.cache.fills && Doomed(s.cache.fills[h])
    ensures h in AC.Do(s, step).value.cache.fills && Doomed(AC.Do(s, step).value.cache.fills[h])
  {
    if step.Answer? && step.h == h {
      DoomedAnswer(s, h, step.e, step.now);
    }
  }

  lemma DoomedAnswer(s: AC.State, h: nat, e: AP.Event, now: Time)
    requires AC.DoAnswer(s, h, e, now).Some? && Doomed(s.cache.fills[h])
    ensures Doomed(AC.DoAnswer(s, h, e, now).value.cache.fills[h])
  {
  }

  lemma {:induction false} DoomedForGood(w: World, steps: seq<Step>, w': World, h: nat)
    requires Inv(w) && Leads(w, steps, w') && h in w.shared.cache.fills && Doomed(w.shared.cache.fills[h])
    ensures h in w'.shared.cache.fills && Doomed(w'.shared.cache.fills[h])
  {
    if steps != [] {
      var mid := LastStep(w, steps, w');
      DoomedForGood(w, Init(steps), mid, h);
      OneStepDoomed(mid, Last(steps), h);
    }
  }

  lemma OneStepDoomed(w: World, step: Step, h: nat)
    requires Do(w, step).Some? && h in w.shared.cache.fills && Doomed(w.shared.cache.fills[h])
    ensures h in Do(w, step).value.shared.cache.fills && Doomed(Do(w, step).value.shared.cache.fills[h])
  {
    if step.Artifact? {
      DoomedStays(w.shared, step.a, h);
    }
  }

  ghost predicate MayRedirect(w: World, h: nat) {
    exists steps, w' :: Leads(w, steps, w') && h in w'.shared.cache.fills && w'.shared.cache.fills[h].pc.Redirected?
  }

  /** A handler that has read its row can still end in a redirect exactly if it is not doomed: every
      other failure, of any handler, leaves the way open. */
  lemma MayRedirectIff(w: World, h: nat)
    requires Inv(w) && h in w.shared.cache.fills && !w.shared.cache.fills[h].pc.Start?
    requires Supplied(w.shared, w.shared.cache.fills[h].pc)
    ensures MayRedirect(w, h) <==> !Doomed(w.shared.cache.fills[h])
  {
    if !Doomed(w.shared.cache.fills[h]) {
      var steps, w' := CanFinish(w, h);
    } else {
      forall steps, w' | Leads(w, steps, w')
        ensures h in w'.shared.cache.fills && !w'.shared.cache.fills[h].pc.Redirected?
      {
        DoomedForGood(w, steps, w', h);
      }
    }
  }

  /** Whatever failed before, a new request for a row can be answered by its own calls alone with a
      redirect. */
  lemma NewRequestMaySucceed(w: World, h: nat, v: Id) returns (steps: seq<Step>, w': World)
    requires Inv(w) && h !in w.shared.cache.fills && v in w.shared.tables.versions
    requires w.shared.tables.versions[v].artifactId.None? ==> w.shared.cache.nextId <= I64_MAX
    ensures Leads(w, [Artifact(AC.Spawn(h, v))] + steps, w') && OnlyAnswers(steps, h)
    ensures h in w'.shared.cache.fills && w'.shared.cache.fills[h].pc.Redirected?
    ensures w'.shared.cache.fills[h].versionId == v
  {
    var step := Artifact(AC.Spawn(h, v));
    var mid := Do(w, step).value;
    StepInv(w, step);
    steps, w' := CanFinish(mid, h);
    RunKeeps(mid, steps, w');
    assert AT.FillLater(mid.shared.cache.fills[h], w'.shared.cache.fills[h]);
    Prepend(w, step, mid, steps, w');
  }
}
