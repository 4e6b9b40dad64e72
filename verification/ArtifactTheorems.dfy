/** What the shared artifact cache guarantees in every state its invariant describes, and what each
    step keeps. */
module ArtifactTheorems {
  import opened Basics
  import opened Decimal
  import opened Catalogue
  import opened ArtifactProgram
  import opened ArtifactCache

  // ---------------------------------------------------------------- coherence

  /** The object under `key` is complete: it is, byte for byte, the whole of one upstream stream that a
      handler opened for exactly what row `v` is about. */
  ghost predicate Genuine(s: State, key: string, v: Id) {
    && key in s.cache.bucket.objects
    && var m := s.cache.bucket.objects[key].maker;
       && m in s.cache.fills
       && var tr := s.cache.fills[m].trace;
          && Ended(tr) && !BrokenOff(tr)
          && s.cache.bucket.objects[key].bytes == Received(tr)
          && StreamOf(tr).Some? && StreamOf(tr).value.versionId == v
          && About(s.tables, v, StreamOf(tr).value.provider, StreamOf(tr).value.tuple)
  }

  lemma {:induction false} EndedIsNotBroken(prefix: string, v: Id, tr: seq<Event>)
    requires Run(prefix, Start(v), tr).Some? && Ended(tr)
    ensures !BrokenOff(tr)
  {
    AbortIffBroken(prefix, v, tr);
    HistoryKnown(prefix, v, tr);
    if BrokenOff(tr) {
      AfterBreak(prefix, v, tr);
    }
  }

  /** Once the stream broke off there is no more of it. */
  lemma {:induction false} AfterBreak(prefix: string, v: Id, tr: seq<Event>)
    requires Run(prefix, Start(v), tr).Some? && BrokenOff(tr)
    ensures !Ended(tr)
  {
    AbortIffBroken(prefix, v, Init(tr));
    HistoryKnown(prefix, v, Init(tr));
    if BrokenOff(Init(tr)) {
      AfterBreak(prefix, v, Init(tr));
    }
  }

  lemma MadeForIsGenuine(s: State, id: Id, v: Id)
    requires Inv(s) && MadeFor(s.cache, id, v)
    ensures Genuine(s, S3Key(s.cache.prefix, id), v)
  {
    var key := S3Key(s.cache.prefix, id);
    assert ObjectInv(s.cache, key);
    var m := s.cache.bucket.objects[key].maker;
    assert FillInv(s.tables, s.cache, m, s.cache.fills[m]);
    EndedIsNotBroken(s.cache.prefix, s.cache.fills[m].versionId, s.cache.fills[m].trace);
  }

  /** Every artifact id in the catalogue names a genuine object for its row. */
  lemma CatalogueIsCoherent(s: State, v: Id)
    requires Inv(s) && v in s.tables.versions && s.tables.versions[v].artifactId.Some?
    ensures Genuine(s, S3Key(s.cache.prefix, s.tables.versions[v].artifactId.value), v)
  {
    assert RowInv(s.tables, s.cache, v);
    MadeForIsGenuine(s, s.tables.versions[v].artifactId.value, v);
  }

  /** Every redirect ever returned names a genuine object for the row that was asked for, and was returned
      only after the artifact was recorded: the row has an artifact from then on. */
  lemma RedirectIsCoherent(s: State, h: nat)
    requires Inv(s) && h in s.cache.fills && s.cache.fills[h].pc.Redirected?
    ensures Genuine(s, s.cache.fills[h].pc.key, s.cache.fills[h].versionId)
    ensures WasRecorded(s.tables, s.cache, s.cache.fills[h].pc.artifact.artifactId, s.cache.fills[h].versionId)
  {
    var f := s.cache.fills[h];
    assert FillInv(s.tables, s.cache, h, f);
    RedirectKey(s.cache.prefix, f.versionId, f.trace);
    MadeForIsGenuine(s, f.pc.artifact.artifactId, f.versionId);
  }

  /** Every object lies under the prefix, in the artifact directory, under the id its maker allocated. */
  lemma ObjectIsNamed(s: State, key: string)
    requires Inv(s) && key in s.cache.bucket.objects
    ensures var m := s.cache.bucket.objects[key].maker;
      m in s.cache.fills && IdOf(s.cache.fills[m].trace).Some?
      && Names(s.cache.prefix, key, IdOf(s.cache.fills[m].trace).value)
  {
    assert ObjectInv(s.cache, key);
    S3KeyNames(s.cache.prefix, IdOf(s.cache.fills[s.cache.bucket.objects[key].maker].trace).value);
  }

  lemma RedirectIsNamed(s: State, h: nat)
    requires Inv(s) && h in s.cache.fills && s.cache.fills[h].pc.Redirected?
    ensures Names(s.cache.prefix, s.cache.fills[h].pc.key, s.cache.fills[h].pc.artifact.artifactId)
  {
    var f := s.cache.fills[h];
    assert FillInv(s.tables, s.cache, h, f);
    RedirectKey(s.cache.prefix, f.versionId, f.trace);
    S3KeyNames(s.cache.prefix, f.pc.artifact.artifactId);
  }

  lemma RedirectKey(prefix: string, v: Id, tr: seq<Event>)
    requires Run(prefix, Start(v), tr).Some? && Run(prefix, Start(v), tr).value.Redirected?
    ensures var pc := Run(prefix, Start(v), tr).value; pc.key == S3Key(prefix, pc.artifact.artifactId)
  {
  }

  // ---------------------------------------------------------------- what a step keeps

  /** Rows, objects and recordings only accumulate. */
  ghost predicate Grown(s: State, s': State) {
    && Extends(s.tables, s'.tables) && s'.cache.prefix == s.cache.prefix
    && (forall key :: key in s.cache.bucket.objects ==>
          key in s'.cache.bucket.objects && s'.cache.bucket.objects[key] == s.cache.bucket.objects[key])
    && s.cache.recorded <= s'.cache.recorded
  }

  /** A handler keeps what it was asked, the id it allocated, and its outcome. */
  ghost predicate FillLater(f: Fill, f': Fill) {
    && f'.versionId == f.versionId
    && (Finished(f.pc) ==> f'.pc == f.pc && f'.trace == f.trace)
    && (IdOf(f.trace).Some? ==> IdOf(f'.trace) == IdOf(f.trace))
    && (f.trace != [] ==> f'.trace != [])
  }

  /** What later states keep of earlier ones. */
  ghost predicate Later(s: State, s': State) {
    && Grown(s, s')
    && (forall h :: h in s.cache.fills ==> h in s'.cache.fills && FillLater(s.cache.fills[h], s'.cache.fills[h]))
  }

  lemma LaterTransitive(a: State, b: State, c: State)
    requires Later(a, b) && Later(b, c)
    ensures Later(a, c)
  {
  }

  lemma IdKept(prefix: string, v: Id, tr: seq<Event>, e: Event)
    requires Run(prefix, Start(v), tr + [e]).Some? && IdOf(tr).Some?
    ensures IdOf(tr + [e]) == IdOf(tr)
  {
    Snoc(tr, e);
    HistoryKnown(prefix, v, tr);
  }

  lemma UpdateGrows(s: State, h: nat, call: Call, etag: string, now: Time)
    requires Inv(s) && call.UpdateRow? && Effect(s, h, call, etag, now).Some?
    ensures Grown(s, Effect(s, h, call, etag, now).value)
  {
    RecordRows(s.tables, call.artifact.versionId, call.artifact.artifactId, now);
  }

  /** A justified call never overwrites an object and never loses a row. */
  lemma EffectGrows(s: State, h: nat, call: Call, etag: string, now: Time)
    requires Inv(s) && h in s.cache.fills && Pending(s.cache.prefix, s.cache.fills[h]) == Some(call)
    requires Effect(s, h, call, etag, now).Some?
    ensures Grown(s, Effect(s, h, call, etag, now).value)
  {
    if call.CompleteUpload? {
      CompletionIsExact(s, h, call, now);
    } else if call.UpdateRow? {
      UpdateGrows(s, h, call, etag, now);
    }
  }

  lemma PendingIsOutstanding(s: State, h: nat)
    requires Inv(s) && h in s.cache.fills && s.cache.fills[h].live
    requires Outstanding(s.cache.prefix, s.cache.fills[h].pc).Some?
    ensures Pending(s.cache.prefix, s.cache.fills[h]) == Outstanding(s.cache.prefix, s.cache.fills[h].pc)
  {
    assert FillInv(s.tables, s.cache, h, s.cache.fills[h]);
  }

  lemma AnswerGrows(s: State, h: nat, e: Event, now: Time)
    requires Inv(s) && DoAnswer(s, h, e, now).Some?
    ensures Grown(s, DoAnswer(s, h, e, now).value)
  {
    var call := Outstanding(s.cache.prefix, s.cache.fills[h].pc);
    if call.Some? && Succeeded(e) {
      PendingIsOutstanding(s, h);
      EffectGrows(s, h, call.value, EtagOf(e), now);
    }
  }

  lemma PlainStepGrows(s: State, step: Step)
    requires Do(s, step).Some? && !step.Answer? && !step.Land?
    ensures Do(s, step).value.tables == s.tables && Do(s, step).value.cache.bucket == s.cache.bucket
    ensures Do(s, step).value.cache.prefix == s.cache.prefix && Do(s, step).value.cache.recorded == s.cache.recorded
  {
  }

  lemma StepGrows(s: State, step: Step)
    requires Inv(s) && Do(s, step).Some?
    ensures Grown(s, Do(s, step).value)
  {
    match step {
      case Answer(h, e, now) => AnswerGrows(s, h, e, now);
      case Land(h, etag, now) => EffectGrows(s, h, s.cache.fills[h].limbo.value, etag, now);
      case _ => PlainStepGrows(s, step);
    }
  }

  lemma AnswerMoves(s: State, h: nat, e: Event, now: Time)
    requires Inv(s) && DoAnswer(s, h, e, now).Some?
    ensures FillLater(s.cache.fills[h], DoAnswer(s, h, e, now).value.cache.fills[h])
  {
    var f := s.cache.fills[h];
    AnswerHistory(s, h, e, now);
    if IdOf(f.trace).Some? {
      IdKept(s.cache.prefix, f.versionId, f.trace, e);
    }
  }

  lemma OthersDoNotMove(s: State, step: Step, h: nat)
    requires Do(s, step).Some? && h in s.cache.fills && (step.SkipIds? || step.h != h)
    ensures h in Do(s, step).value.cache.fills && Do(s, step).value.cache.fills[h] == s.cache.fills[h]
  {
  }

  lemma StepIsLater(s: State, step: Step)
    requires Inv(s) && Do(s, step).Some?
    ensures Later(s, Do(s, step).value)
  {
    StepGrows(s, step);
    var s' := Do(s, step).value;
    forall h | h in s.cache.fills
      ensures h in s'.cache.fills && FillLater(s.cache.fills[h], s'.cache.fills[h])
    {
      if step.SkipIds? || step.h != h {
        OthersDoNotMove(s, step, h);
      } else if step.Answer? {
        AnswerMoves(s, h, step.e, step.now);
      }
    }
  }

  /** Rows change only by a row update of a handler for its own row, and then only in the artifact
      columns; every other step, every failure and every dropped handler leaves the catalogue as it was. */
  lemma OnlyUpdatesTouchRows(s: State, step: Step)
    requires Inv(s) && Do(s, step).Some? && Do(s, step).value.tables != s.tables
    ensures step.Answer? || step.Land?
    ensures step.h in s.cache.fills
    ensures var f := s.cache.fills[step.h];
      && Pending(s.cache.prefix, f).Some? && Pending(s.cache.prefix, f).value.UpdateRow?
      && (step.Answer? ==> step.e.RowUpdated? && step.e.ok)
      && var a := Pending(s.cache.prefix, f).value.artifact;
         && a.versionId == f.versionId && Genuine(s, S3Key(s.cache.prefix, a.artifactId), f.versionId)
         && Record(s.tables, f.versionId, a.artifactId, step.now) == Ok(Do(s, step).value.tables)
  {
    var f := s.cache.fills[step.h];
    assert FillInv(s.tables, s.cache, step.h, f);
    var a := Pending(s.cache.prefix, f).value.artifact;
    assert CallJustified(s.cache, step.h, f, UpdateRow(a));
    MadeForIsGenuine(s, a.artifactId, f.versionId);
  }

  /** An upload is closed only by its own handler: by the abort that follows a broken stream, or by a
      completion, which makes the object.  Every other failure leaves it open. */
  lemma UploadsCloseByTheirOwner(s: State, step: Step, u: string)
    requires Inv(s) && Do(s, step).Some? && u in s.cache.bucket.uploads && u !in Do(s, step).value.cache.bucket.uploads
    ensures (step.Answer? || step.Land?) && step.h in s.cache.fills
    ensures var f := s.cache.fills[step.h];
      && UploadOf(f.trace) == Some(u) && Pending(s.cache.prefix, f).Some?
      && match Pending(s.cache.prefix, f).value
         case AbortUpload(_) => BrokenOff(f.trace)
         case CompleteUpload(_, key, parts) =>
           Ended(f.trace) && parts != [] && key in Do(s, step).value.cache.bucket.objects
         case _ => false
  {
    var f := s.cache.fills[step.h];
    assert FillInv(s.tables, s.cache, step.h, f);
    var call := ClosingCall(s, step, u);
    assert CallJustified(s.cache, step.h, f, call);
  }

  lemma ClosingCall(s: State, step: Step, u: string) returns (call: Call)
    requires Inv(s) && Do(s, step).Some? && u in s.cache.bucket.uploads && u !in Do(s, step).value.cache.bucket.uploads
    ensures (step.Answer? || step.Land?) && step.h in s.cache.fills
    ensures Pending(s.cache.prefix, s.cache.fills[step.h]) == Some(call)
    ensures call == AbortUpload(u)
            || (call.CompleteUpload? && call.uploadId == u && call.parts != []
                && call.key in Do(s, step).value.cache.bucket.objects)
  {
    var f := s.cache.fills[step.h];
    if step.Answer? {
      call := Outstanding(s.cache.prefix, f.pc).value;
      PendingIsOutstanding(s, step.h);
      EffectCloses(s, step.h, call, EtagOf(step.e), step.now, u);
    } else {
      call := f.limbo.value;
      EffectCloses(s, step.h, call, step.etag, step.now, u);
    }
  }

  lemma EffectCloses(s: State, h: nat, call: Call, etag: string, now: Time, u: string)
    requires Effect(s, h, call, etag, now).Some?
    requires u in s.cache.bucket.uploads && u !in Effect(s, h, call, etag, now).value.cache.bucket.uploads
    ensures call == AbortUpload(u)
            || (call.CompleteUpload? && call.uploadId == u && call.parts != []
                && call.key in Effect(s, h, call, etag, now).value.cache.bucket.objects)
  {
  }

  /** The handler makes no further call: it was dropped, or it has answered. */
  predicate Over(f: Fill) {
    !f.live || Finished(f.pc)
  }

  /** A call of the handler that is not accounted for would still close its upload. */
  predicate MayStillClose(f: Fill) {
    f.limbo.Some? && (f.limbo.value.AbortUpload? || (f.limbo.value.CompleteUpload? && f.limbo.value.parts != []))
  }

  /** A handler that is over gets no new call under way. */
  lemma OverStays(s: State, step: Step, h: nat)
    requires Do(s, step).Some? && h in s.cache.fills && Over(s.cache.fills[h])
    ensures h in Do(s, step).value.cache.fills
    ensures var f, f' := s.cache.fills[h], Do(s, step).value.cache.fills[h];
      Over(f') && f'.trace == f.trace && (f'.limbo == f.limbo || f'.limbo.None?)
  {
    if step.Answer? && step.h == h {
      OverAnswersNothing(s, h, step.e, step.now);
    }
  }

  lemma OverAnswersNothing(s: State, h: nat, e: Event, now: Time)
    requires h in s.cache.fills && Over(s.cache.fills[h])
    ensures DoAnswer(s, h, e, now).None?
  {
  }

  /** With no such call outstanding, an upload of a handler that is over survives every step. */
  lemma StaysOpen(s: State, step: Step, h: nat, u: string)
    requires Inv(s) && Do(s, step).Some? && h in s.cache.fills && Over(s.cache.fills[h])
    requires UploadOf(s.cache.fills[h].trace) == Some(u) && u in s.cache.bucket.uploads
    requires !MayStillClose(s.cache.fills[h])
    ensures u in Do(s, step).value.cache.bucket.uploads
  {
    if u !in Do(s, step).value.cache.bucket.uploads {
      UploadsCloseByTheirOwner(s, step, u);
      OverIsPendingInLimbo(s, h);
    }
  }

  lemma OverIsPendingInLimbo(s: State, h: nat)
    requires h in s.cache.fills && Over(s.cache.fills[h])
    ensures Pending(s.cache.prefix, s.cache.fills[h]) == s.cache.fills[h].limbo
  {
  }

  lemma LimboTells(s: State, h: nat)
    requires Inv(s) && h in s.cache.fills && MayStillClose(s.cache.fills[h])
    ensures var f := s.cache.fills[h];
      if f.limbo.value.AbortUpload? then BrokenOff(f.trace) else Ended(f.trace) && !BrokenOff(f.trace)
  {
    var f := s.cache.fills[h];
    assert FillInv(s.tables, s.cache, h, f);
    assert CallJustified(s.cache, h, f, f.limbo.value);
    if f.limbo.value.CompleteUpload? {
      EndedIsNotBroken(s.cache.prefix, f.versionId, f.trace);
    }
  }

  /** With one outstanding, its landing closes the upload. */
  lemma LandingCloses(s: State, h: nat, u: string)
    requires Inv(s) && h in s.cache.fills && MayStillClose(s.cache.fills[h])
    requires UploadOf(s.cache.fills[h].trace) == Some(u) && u in s.cache.bucket.uploads
    ensures Do(s, Land(h, "", 0)).Some? && u !in Do(s, Land(h, "", 0)).value.cache.bucket.uploads
  {
    var f := s.cache.fills[h];
    assert FillInv(s.tables, s.cache, h, f);
    var call := f.limbo.value;
    assert CallJustified(s.cache, h, f, call);
    if call.CompleteUpload? {
      AssembleHeld(s.cache.bucket, call.key, u, call.parts, Bodies(f.trace));
    }
  }

  // ---------------------------------------------------------------- accounting for ids

  datatype Phase = InFlight | Abandoned | Unrecorded | Current | Superseded

  predicate CanComplete(prefix: string, f: Fill) {
    !PastComplete(prefix, f)
  }

  predicate IsCurrent(t: Tables, id: Id) {
    exists v :: v in t.versions && t.versions[v].artifactId == Some(id)
  }

  /** The five fates of the id that handler `h` allocated. */
  predicate InPhase(s: State, h: nat, id: Id, phase: Phase)
    requires h in s.cache.fills
  {
    var made := S3Key(s.cache.prefix, id) in s.cache.bucket.objects;
    match phase
    case InFlight => !made && CanComplete(s.cache.prefix, s.cache.fills[h])
    case Abandoned => !made && !CanComplete(s.cache.prefix, s.cache.fills[h])
    case Unrecorded => made && id !in s.cache.recorded
    case Current => IsCurrent(s.tables, id)
    case Superseded => id in s.cache.recorded && !IsCurrent(s.tables, id)
  }

  /** Which later phases an id in a given phase can still reach. */
  predicate MayBecome(p: Phase, q: Phase) {
    match p
    case InFlight => true
    case Abandoned => q.Abandoned?
    case Unrecorded => q.Unrecorded? || q.Current? || q.Superseded?
    case Current => q.Current? || q.Superseded?
    case Superseded => q.Superseded?
  }

  /** Every allocated id is in exactly one phase. */
  lemma ExactlyOnePhase(s: State, h: nat, id: Id) returns (phase: Phase)
    requires Inv(s) && h in s.cache.fills && IdOf(s.cache.fills[h].trace) == Some(id)
    ensures InPhase(s, h, id, phase)
    ensures forall q :: InPhase(s, h, id, q) ==> q == phase
  {
    assert RecordedInv(s.cache, id);
    if IsCurrent(s.tables, id) {
      var v :| v in s.tables.versions && s.tables.versions[v].artifactId == Some(id);
      assert RowInv(s.tables, s.cache, v);
      phase := Current;
    } else if id in s.cache.recorded {
      phase := Superseded;
    } else if S3Key(s.cache.prefix, id) in s.cache.bucket.objects {
      phase := Unrecorded;
    } else if CanComplete(s.cache.prefix, s.cache.fills[h]) {
      phase := InFlight;
    } else {
      phase := Abandoned;
    }
  }

  /** An id moves forward only: what was abandoned is never completed, and what was superseded never
      comes back, because a recording is never repeated. */
  lemma PhaseMovesForward(s: State, step: Step, h: nat, id: Id, p: Phase, q: Phase)
    requires Inv(s) && Do(s, step).Some? && h in s.cache.fills && IdOf(s.cache.fills[h].trace) == Some(id)
    requires InPhase(s, h, id, p) && h in Do(s, step).value.cache.fills && InPhase(Do(s, step).value, h, id, q)
    ensures MayBecome(p, q)
  {
    StepInv(s, step);
    StepGrows(s, step);
    if p.Abandoned? {
      AbandonedStays(s, step, h, id);
    } else if p.Superseded? {
      SupersededStays(s, step, h, id);
    }
    PhaseUnderGrowth(s, Do(s, step).value, h, id, p, q);
  }

  lemma PhaseUnderGrowth(s: State, s': State, h: nat, id: Id, p: Phase, q: Phase)
    requires Inv(s) && Inv(s') && Grown(s, s') && h in s.cache.fills && h in s'.cache.fills
    requires InPhase(s, h, id, p) && InPhase(s', h, id, q)
    requires p.Abandoned? ==> InPhase(s', h, id, Abandoned)
    requires p.Superseded? ==> !IsCurrent(s'.tables, id)
    ensures MayBecome(p, q)
  {
    CurrentIsRecorded(s, id);
    CurrentIsRecorded(s', id);
  }

  lemma CurrentIsRecorded(s: State, id: Id)
    requires Inv(s)
    ensures IsCurrent(s.tables, id) ==> id in s.cache.recorded
    ensures id in s.cache.recorded ==> S3Key(s.cache.prefix, id) in s.cache.bucket.objects
  {
    assert RecordedInv(s.cache, id);
    if v :| v in s.tables.versions && s.tables.versions[v].artifactId == Some(id) {
      assert RowInv(s.tables, s.cache, v);
    }
  }

  lemma AbandonedStays(s: State, step: Step, h: nat, id: Id)
    requires Inv(s) && Do(s, step).Some? && h in s.cache.fills && IdOf(s.cache.fills[h].trace) == Some(id)
    requires InPhase(s, h, id, Abandoned)
    ensures h in Do(s, step).value.cache.fills && InPhase(Do(s, step).value, h, id, Abandoned)
  {
    var s' := Do(s, step).value;
    var key := S3Key(s.cache.prefix, id);
    assert FillInv(s.tables, s.cache, h, s.cache.fills[h]);
    StepInv(s, step);
    StepIsLater(s, step);
    StaysPastComplete(s, step, h);
    assert ObjectInv(s'.cache, key);
    if key in s'.cache.bucket.objects {
      var m := s'.cache.bucket.objects[key].maker;
      assert FillInv(s'.tables, s'.cache, h, s'.cache.fills[h]);
      assert m != h ==> Apart(s'.cache.fills[m], s'.cache.fills[h]);
      NewObjectsAreTheStepper(s, step, key);
      S3KeyInjective(s.cache.prefix, IdOf(s'.cache.fills[m].trace).value, id);
    }
  }

  lemma StaysPastComplete(s: State, step: Step, h: nat)
    requires Inv(s) && Do(s, step).Some? && h in s.cache.fills && PastComplete(s.cache.prefix, s.cache.fills[h])
    ensures h in Do(s, step).value.cache.fills && PastComplete(s.cache.prefix, Do(s, step).value.cache.fills[h])
  {
    if step.SkipIds? || step.h != h {
      OthersDoNotMove(s, step, h);
    } else if step.Answer? {
      assert FillInv(s.tables, s.cache, h, s.cache.fills[h]);
      AnswerPastComplete(s, h, step.e, step.now);
    } else {
      assert FillInv(s.tables, s.cache, h, s.cache.fills[h]);
      OtherwisePastComplete(s, step);
    }
  }

  lemma AnswerPastComplete(s: State, h: nat, e: Event, now: Time)
    requires DoAnswer(s, h, e, now).Some? && FillInv(s.tables, s.cache, h, s.cache.fills[h])
    requires PastComplete(s.cache.prefix, s.cache.fills[h])
    ensures PastComplete(s.cache.prefix, DoAnswer(s, h, e, now).value.cache.fills[h])
  {
  }

  lemma OtherwisePastComplete(s: State, step: Step)
    requires Do(s, step).Some? && !step.SkipIds? && !step.Answer? && step.h in s.cache.fills
    requires FillInv(s.tables, s.cache, step.h, s.cache.fills[step.h])
    requires PastComplete(s.cache.prefix, s.cache.fills[step.h])
    ensures step.h in Do(s, step).value.cache.fills
    ensures PastComplete(s.cache.prefix, Do(s, step).value.cache.fills[step.h])
  {
  }

  /** A new object is the work of a handler that could still complete. */
  lemma NewObjectsAreTheStepper(s: State, step: Step, key: string)
    requires Inv(s) && Do(s, step).Some? && key !in s.cache.bucket.objects
    requires key in Do(s, step).value.cache.bucket.objects
    ensures var m := Do(s, step).value.cache.bucket.objects[key].maker;
      m in s.cache.fills && !PastComplete(s.cache.prefix, s.cache.fills[m])
  {
    var f := s.cache.fills[step.h];
    if step.Answer? {
      PendingIsOutstanding(s, step.h);
      OnlyCompletionsMakeObjects(s, step.h, Outstanding(s.cache.prefix, f.pc).value, EtagOf(step.e), step.now, key);
    } else {
      OnlyCompletionsMakeObjects(s, step.h, f.limbo.value, step.etag, step.now, key);
    }
  }

  lemma OnlyCompletionsMakeObjects(s: State, h: nat, call: Call, etag: string, now: Time, key: string)
    requires Effect(s, h, call, etag, now).Some?
    requires key !in s.cache.bucket.objects && key in Effect(s, h, call, etag, now).value.cache.bucket.objects
    ensures call.CompleteUpload? && Effect(s, h, call, etag, now).value.cache.bucket.objects[key].maker == h
  {
  }

  lemma SupersededStays(s: State, step: Step, h: nat, id: Id)
    requires Inv(s) && Do(s, step).Some? && id in s.cache.recorded && !IsCurrent(s.tables, id)
    ensures !IsCurrent(Do(s, step).value.tables, id)
  {
    var s' := Do(s, step).value;
    if s'.tables != s.tables {
      OnlyUpdatesTouchRows(s, step);
      var f := s.cache.fills[step.h];
      assert FillInv(s.tables, s.cache, step.h, f);
      assert CallJustified(s.cache, step.h, f, Pending(s.cache.prefix, f).value);
    }
  }

  // ---------------------------------------------------------------- independence from upstream

  /** The handler has not contacted upstream and never will unless it still has to read its row. */
  predicate Quiet(f: Fill) {
    && !Contacted(f.trace)
    && (f.pc.Start? || f.pc.Presigning? || f.pc.Redirected? || f.pc.Failed?)
  }

  lemma ContactedSnoc(tr: seq<Event>, e: Event)
    ensures Contacted(tr + [e]) <==> Contacted(tr) || e.UpstreamOpened?
  {
    if i :| 0 <= i < |tr + [e]| && (tr + [e])[i].UpstreamOpened? {
      assert i < |tr| ==> tr[i].UpstreamOpened?;
    }
    if i :| 0 <= i < |tr| && tr[i].UpstreamOpened? {
      assert (tr + [e])[i].UpstreamOpened?;
    }
    if e.UpstreamOpened? {
      assert (tr + [e])[|tr|].UpstreamOpened?;
    }
  }

  /** Once a row has an artifact, a handler that had not contacted upstream for it never does. */
  lemma QuietStaysQuiet(s: State, step: Step, h: nat)
    requires Inv(s) && Do(s, step).Some? && h in Do(s, step).value.cache.fills
    requires var v := Do(s, step).value.cache.fills[h].versionId;
             v in s.tables.versions && s.tables.versions[v].artifactId.Some?
    requires h in s.cache.fills ==> Quiet(s.cache.fills[h])
    ensures Quiet(Do(s, step).value.cache.fills[h])
  {
    if h !in s.cache.fills {
      NewcomersStart(s, step, h);
    } else if step.Answer? && step.h == h {
      QuietAnswer(s, h, step.e, step.now);
    } else {
      OnlyAnswersMove(s, step, h);
    }
  }

  lemma NewcomersStart(s: State, step: Step, h: nat)
    requires Do(s, step).Some? && h !in s.cache.fills && h in Do(s, step).value.cache.fills
    ensures var f := Do(s, step).value.cache.fills[h]; f.pc == Start(f.versionId) && f.trace == []
  {
  }

  lemma OnlyAnswersMove(s: State, step: Step, h: nat)
    requires Do(s, step).Some? && h in s.cache.fills && !(step.Answer? && step.h == h)
    ensures h in Do(s, step).value.cache.fills
    ensures var f' := Do(s, step).value.cache.fills[h];
      f'.pc == s.cache.fills[h].pc && f'.trace == s.cache.fills[h].trace && f'.versionId == s.cache.fills[h].versionId
  {
  }

  lemma QuietAnswer(s: State, h: nat, e: Event, now: Time)
    requires Inv(s) && DoAnswer(s, h, e, now).Some? && Quiet(s.cache.fills[h])
    requires var v := s.cache.fills[h].versionId; v in s.tables.versions && s.tables.versions[v].artifactId.Some?
    ensures Quiet(DoAnswer(s, h, e, now).value.cache.fills[h])
  {
    AnswerHistory(s, h, e, now);
    ContactedSnoc(s.cache.fills[h].trace, e);
  }

  // ---------------------------------------------------------------- catalogue growth

  /** New rows without artifacts, inserted by whoever, disturb nothing. */
  lemma GrowthKeepsInv(s: State, t: Tables)
    requires Inv(s) && Constraints(t) && Extends(s.tables, t)
    requires forall v :: v in s.tables.versions ==> t.versions[v] == s.tables.versions[v]
    requires forall v :: v in t.versions && v !in s.tables.versions ==> t.versions[v].artifactId.None?
    ensures Inv(State(t, s.cache)) && Later(s, State(t, s.cache))
  {
    forall h | h in s.cache.fills ensures FillInv(t, s.cache, h, s.cache.fills[h]) {
      assert FillInv(s.tables, s.cache, h, s.cache.fills[h]);
      PcAboutKept(s.tables, t, s.cache.fills[h].pc);
    }
    forall v ensures RowInv(t, s.cache, v) {
      assert RowInv(s.tables, s.cache, v);
    }
  }
}
