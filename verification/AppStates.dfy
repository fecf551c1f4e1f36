/**
 The handlers of src/api.rs over the two database objects. Each is proved to be a solo run of the
 protocol, so every theorem about the protocol's runs is a theorem about these methods.
 */
module AppStates {
  import opened Results
  import opened ObjectKeys
  import opened ObjectVerification
  import opened Persistence
  import opened Protocol
  import opened WriteContexts
  import opened SoloRuns
  import opened Invariants

  /** With unique identifiers, any open row is the one the protocol's read reports. */
  lemma PendingUploadIsUnique(
      rows: Tables, id: Uuid, subject: Option<string>, now: int, result: Result<PendingUpload, DataError>)
    requires UniqueIds(rows) && IsPendingUpload(rows, id, subject, now, result)
    ensures result == FindPendingUpload(rows, id, subject, now)
  {
  }

  class AppState {
    const crypto: Crypto
    const primary: WriteContext
    const supabase: WriteContext

    constructor (crypto: Crypto, primary: WriteContext, supabase: WriteContext)
      ensures this.crypto == crypto && this.primary == primary && this.supabase == supabase
    {
      this.crypto := crypto;
      this.primary := primary;
      this.supabase := supabase;
    }

    /** The ending of this request, arriving now and left alone. */
    ghost function EndingOf(request: Request, stage: Stage, env: Environment): Ending
      requires StageFits(request, stage) && Possible(env) && !stage.Crashed?
      reads primary, supabase
    {
      Solo(crypto, primary.Contents(), supabase.Contents(), request, stage, env)
    }

    ghost predicate EndsAs(ending: Ending, response: Response)
      reads primary, supabase
    {
      ending == Ending(primary.Contents(), supabase.Contents(), response)
    }

    /** Contract, identity and context: the part every create handler begins with. */
    method Admit(request: Request, env: Environment) returns (r: Result<SubmissionContext, Response>)
      requires request.CreateRequest? && Possible(env)
      ensures r.Ok? ==> Conforms(request) && EndingOf(request, Received, env) == EndingOf(request, Bound(r.value), env)
      ensures r.Err? ==> EndsAs(EndingOf(request, Received, env), r.error)
    {
      hide Solo, BindContext, Authenticate, Conforms;
      ghost var p, m := primary.Contents(), supabase.Contents();
      SoloStep(crypto, p, m, request, Received, env);
      if !(env.contractAccepts && Conforms(request)) {
        AnswerEnds(crypto, p, m, request, Failed(INVALID), env);
        return Err(Failed(INVALID));
      }
      SoloStep(crypto, p, m, request, Validated, env);
      var subject := Authenticate(request, env.bearer, env.proof);
      if subject.Err? {
        AnswerEnds(crypto, p, m, request, Failed(subject.error), env);
        return Err(Failed(subject.error));
      }
      SoloStep(crypto, p, m, request, Identified(subject.value), env);
      var bound := BindContext(crypto, request, subject.value, env.freshId);
      if bound.Err? {
        AnswerEnds(crypto, p, m, request, Failed(bound.error), env);
        return Err(Failed(bound.error));
      }
      return Ok(bound.value);
    }

    /** `record_failure`: the outcome is not reported to the client. */
    method RecordFailureOf(request: Request, context: SubmissionContext, stored: Stored, env: Environment)
      returns (response: Response)
      requires primary != supabase && Possible(env)
      requires StageFits(request, MirrorRefused(context, stored))
      modifies primary
      ensures response == Failed(MirrorUnavailable(stored.id))
      ensures EndsAs(old(EndingOf(request, MirrorRefused(context, stored), env)), response)
    {
      hide Solo, RecordMirrorFailure, ChargeNote;
      ghost var p, m := primary.Contents(), supabase.Contents();
      SoloStep(crypto, p, m, request, MirrorRefused(context, stored), env);
      var _ := primary.ChargeMirrorFailure(request.input.payload.Kind(), stored.id, MIRROR_ERROR_CODE,
                                           env.updateOutbox);
      response := Failed(MirrorUnavailable(stored.id));
      AnswerEnds(crypto, primary.Contents(), m, request, response, env);
    }

    /** `finish_submission`, and the acknowledgement and signing of `create_upload_intent`. */
    method FinishSubmission(request: Request, context: SubmissionContext, stored: Stored, env: Environment)
      returns (response: Response)
      requires primary != supabase && Possible(env)
      requires StageFits(request, MirrorAccepted(context, stored))
      modifies primary
      ensures EndsAs(old(EndingOf(request, MirrorAccepted(context, stored), env)), response)
    {
      hide Solo, MarkMirrored, FinalResponse;
      ghost var p, m := primary.Contents(), supabase.Contents();
      var kind := request.input.payload.Kind();
      SoloStep(crypto, p, m, request, MirrorAccepted(context, stored), env);
      var acknowledged := primary.AcknowledgeMirror(kind, stored.id, context.payloadSha256, env.updateOutbox);
      if acknowledged.Err? {
        response := Failed(MirrorUnavailable(stored.id));
        AnswerEnds(crypto, primary.Contents(), m, request, response, env);
        return;
      }
      SoloStep(crypto, primary.Contents(), m, request, Acknowledged(context, stored), env);
      response := FinalResponse(kind, stored, env.signing);
      AnswerEnds(crypto, primary.Contents(), m, request, response, env);
    }

    /** What follows the mirror call: acceptance under the primary's identifier, or a recorded failure. */
    method Conclude(
        request: Request, context: SubmissionContext, stored: Stored, mirrored: Result<Stored, DataError>,
        env: Environment)
      returns (response: Response)
      requires primary != supabase && Possible(env) && request.CreateRequest? && Conforms(request)
      modifies primary
      ensures EndsAs(old(EndingOf(request, AfterMirror(context, stored, mirrored), env)), response)
    {
      if !(mirrored.Ok? && mirrored.value.id == stored.id) {
        response := RecordFailureOf(request, context, stored, env);
      } else {
        response := FinishSubmission(request, context, stored, env);
      }
    }

    ghost function AfterMirror(context: SubmissionContext, stored: Stored, mirrored: Result<Stored, DataError>): Stage {
      if mirrored.Ok? && mirrored.value.id == stored.id then MirrorAccepted(context, stored)
      else MirrorRefused(context, stored)
    }

    lemma AfterPrimaryCall(
        p: Database, m: Database, request: Request, context: SubmissionContext, settled: Outcome<Stored>,
        env: Environment)
      requires request.CreateRequest? && Conforms(request) && Possible(env)
      requires settled
            == Settle(p, Store(p, Primary, context, request.input.payload, env.storePrimary), env.storePrimary.fault)
      ensures Solo(crypto, p, m, request, Bound(context), env)
           == if settled.result.Ok?
              then Solo(crypto, settled.db, m, request, PrimaryStored(context, settled.result.value), env)
              else Ending(settled.db, m, Failed(FromDataError(settled.result.error)))
    {
      hide Solo, Store;
      SoloStep(crypto, p, m, request, Bound(context), env);
      if settled.result.Err? {
        AnswerEnds(crypto, settled.db, m, request, Failed(FromDataError(settled.result.error)), env);
      }
    }

    lemma AfterMirrorCall(
        p: Database, m: Database, request: Request, context: SubmissionContext, stored: Stored,
        settled: Outcome<Stored>,
        env: Environment)
      requires request.CreateRequest? && Conforms(request) && Possible(env)
      requires settled == Settle(m, Store(m, SupabaseMirror, context.WithCanonicalId(stored.id), request.input.payload,
                                          env.storeMirror), env.storeMirror.fault)
      ensures Solo(crypto, p, m, request, PrimaryStored(context, stored), env)
           == Solo(crypto, p, settled.db, request, AfterMirror(context, stored, settled.result), env)
    {
      hide Solo, Store;
      SoloStep(crypto, p, m, request, PrimaryStored(context, stored), env);
    }

    method CreatePreInterest(request: Request, env: Environment) returns (response: Response)
      requires primary != supabase && Possible(env)
      requires request.CreateRequest? && request.input.payload.PreInterestCreate?
      modifies primary, supabase
      ensures EndsAs(old(EndingOf(request, Received, env)), response)
    {
      hide Solo, Store, Conforms, Settle;
      var admitted := Admit(request, env);
      if admitted.Err? {
        return admitted.error;
      }
      var context, input := admitted.value, request.input.payload;
      ghost var p, m := primary.Contents(), supabase.Contents();
      var stored := primary.StorePreInterest(Primary, context, input, env.storePrimary);
      AfterPrimaryCall(p, m, request, context, Outcome(primary.Contents(), stored), env);
      if stored.Err? {
        return Failed(FromDataError(stored.error));
      }
      var mirrored := supabase.StorePreInterest(
        SupabaseMirror, context.WithCanonicalId(stored.value.id), input, env.storeMirror);
      AfterMirrorCall(primary.Contents(), m, request, context, stored.value, Outcome(supabase.Contents(), mirrored),
                      env);
      response := Conclude(request, context, stored.value, mirrored, env);
    }

    method CreateUploadIntent(request: Request, env: Environment) returns (response: Response)
      requires primary != supabase && Possible(env)
      requires request.CreateRequest? && request.input.payload.UploadIntentCreate?
      modifies primary, supabase
      ensures EndsAs(old(EndingOf(request, Received, env)), response)
    {
      hide Solo, Store, Settle;
      var admitted := Admit(request, env);
      if admitted.Err? {
        return admitted.error;
      }
      var context, input := admitted.value, request.input.payload;
      ghost var p, m := primary.Contents(), supabase.Contents();
      var stored := primary.StoreUploadIntent(Primary, context, input, env.storePrimary);
      AfterPrimaryCall(p, m, request, context, Outcome(primary.Contents(), stored), env);
      if stored.Err? {
        return Failed(FromDataError(stored.error));
      }
      var mirrored := supabase.StoreUploadIntent(
        SupabaseMirror, context.WithCanonicalId(stored.value.id), input, env.storeMirror);
      AfterMirrorCall(primary.Contents(), m, request, context, stored.value, Outcome(supabase.Contents(), mirrored),
                      env);
      response := Conclude(request, context, stored.value, mirrored, env);
    }

    method CreateApplication(request: Request, env: Environment) returns (response: Response)
      requires primary != supabase && Possible(env)
      requires request.CreateRequest? && request.input.payload.ApplicationCreate?
      modifies primary, supabase
      ensures EndsAs(old(EndingOf(request, Received, env)), response)
    {
      hide Solo, Store, Conforms, Settle;
      var admitted := Admit(request, env);
      if admitted.Err? {
        return admitted.error;
      }
      var context, input := admitted.value, request.input.payload;
      ghost var p, m := primary.Contents(), supabase.Contents();
      var stored := primary.StoreApplication(Primary, context, input, env.storePrimary);
      AfterPrimaryCall(p, m, request, context, Outcome(primary.Contents(), stored), env);
      if stored.Err? {
        return Failed(FromDataError(stored.error));
      }
      var mirrored := supabase.StoreApplication(
        SupabaseMirror, context.WithCanonicalId(stored.value.id), input, env.storeMirror);
      AfterMirrorCall(primary.Contents(), m, request, context, stored.value, Outcome(supabase.Contents(), mirrored),
                      env);
      response := Conclude(request, context, stored.value, mirrored, env);
    }

    method CreateReferral(request: Request, env: Environment) returns (response: Response)
      requires primary != supabase && Possible(env)
      requires request.CreateRequest? && request.input.payload.ReferralCreate?
      modifies primary, supabase
      ensures EndsAs(old(EndingOf(request, Received, env)), response)
    {
      hide Solo, Store, Conforms, Settle;
      var admitted := Admit(request, env);
      if admitted.Err? {
        return admitted.error;
      }
      var context, input := admitted.value, request.input.payload;
      ghost var p, m := primary.Contents(), supabase.Contents();
      var stored := primary.StoreReferral(Primary, context, input, env.storePrimary);
      AfterPrimaryCall(p, m, request, context, Outcome(primary.Contents(), stored), env);
      if stored.Err? {
        return Failed(FromDataError(stored.error));
      }
      var mirrored := supabase.StoreReferral(
        SupabaseMirror, context.WithCanonicalId(stored.value.id), input, env.storeMirror);
      AfterMirrorCall(primary.Contents(), m, request, context, stored.value, Outcome(supabase.Contents(), mirrored),
                      env);
      response := Conclude(request, context, stored.value, mirrored, env);
    }

    /** The stage a completion is in after a read of the primary, or of the mirror. */
    lemma AfterPrimaryRead(
        p: Database, m: Database, request: Request, subject: Option<string>, found: Result<PendingUpload, DataError>,
        env: Environment)
      requires request.CompleteRequest? && Conforms(request) && Possible(env) && UniqueIds(p.rows)
      requires if env.readPrimary.fault == NoFault
               then IsPendingUpload(p.rows, request.uploadId, subject, env.readPrimary.databaseNow, found)
               else found == Err(DatabaseFailure)
      ensures Solo(crypto, p, m, request, Identified(subject), env)
           == if found.Err? then Ending(p, m, Failed(FromDataError(found.error)))
              else if request.sha256 != found.value.expectedSha256 then Ending(p, m, Failed(CONFLICT))
              else Solo(crypto, p, m, request, PrimaryRead(subject, found.value), env)
    {
      hide Solo, FindPendingUpload, IsPendingUpload, UniqueIds;
      SoloStep(crypto, p, m, request, Identified(subject), env);
      if env.readPrimary.fault == NoFault {
        PendingUploadIsUnique(p.rows, request.uploadId, subject, env.readPrimary.databaseNow, found);
      }
      if found.Err? {
        AnswerEnds(crypto, p, m, request, Failed(FromDataError(found.error)), env);
      } else if request.sha256 != found.value.expectedSha256 {
        AnswerEnds(crypto, p, m, request, Failed(CONFLICT), env);
      }
    }

    lemma AfterMirrorRead(
        p: Database, m: Database, request: Request, subject: Option<string>, primaryUpload: PendingUpload,
        found: Result<PendingUpload, DataError>, env: Environment)
      requires request.CompleteRequest? && Conforms(request) && Possible(env) && UniqueIds(m.rows)
      requires if env.readMirror.fault == NoFault
               then IsPendingUpload(m.rows, request.uploadId, subject, env.readMirror.databaseNow, found)
               else found == Err(DatabaseFailure)
      ensures Solo(crypto, p, m, request, PrimaryRead(subject, primaryUpload), env)
           == if found.Err? then Ending(p, m, Failed(FromDataError(found.error)))
              else if !SameUploadIdentity(primaryUpload, found.value) then Ending(p, m, Failed(CONFLICT))
              else Solo(crypto, p, m, request, IdentityMatched(subject, primaryUpload), env)
    {
      hide Solo, FindPendingUpload, IsPendingUpload, UniqueIds, SameUploadIdentity;
      SoloStep(crypto, p, m, request, PrimaryRead(subject, primaryUpload), env);
      if env.readMirror.fault == NoFault {
        PendingUploadIsUnique(m.rows, request.uploadId, subject, env.readMirror.databaseNow, found);
      }
      if found.Err? {
        AnswerEnds(crypto, p, m, request, Failed(FromDataError(found.error)), env);
      } else if !SameUploadIdentity(primaryUpload, found.value) {
        AnswerEnds(crypto, p, m, request, Failed(CONFLICT), env);
      }
    }

    /** `complete_upload` up to its first write: nothing is changed, and the object has been seen. */
    method CheckUpload(request: Request, env: Environment)
      returns (r: Result<(Option<string>, PendingUpload), Response>)
      requires request.CompleteRequest? && Possible(env) && UniqueIds(primary.rows) && UniqueIds(supabase.rows)
      ensures r.Ok? ==> Conforms(request)
                        && EndingOf(request, Received, env)
                           == EndingOf(request, ObjectVerified(r.value.0, r.value.1), env)
      ensures r.Err? ==> EndsAs(EndingOf(request, Received, env), r.error)
    {
      hide Solo, Authenticate, Conforms, IsPendingUpload, SameUploadIdentity, Verdict, Verified, UniqueIds;
      ghost var p, m := primary.Contents(), supabase.Contents();
      SoloStep(crypto, p, m, request, Received, env);
      if !(env.contractAccepts && Conforms(request)) {
        AnswerEnds(crypto, p, m, request, Failed(INVALID), env);
        return Err(Failed(INVALID));
      }
      SoloStep(crypto, p, m, request, Validated, env);
      var subject := Authenticate(request, env.bearer, env.proof);
      if subject.Err? {
        AnswerEnds(crypto, p, m, request, Failed(subject.error), env);
        return Err(Failed(subject.error));
      }
      var primaryUpload := primary.PendingUploadOf(request.uploadId, subject.value, env.readPrimary);
      AfterPrimaryRead(p, m, request, subject.value, primaryUpload, env);
      if primaryUpload.Err? {
        return Err(Failed(FromDataError(primaryUpload.error)));
      }
      if request.sha256 != primaryUpload.value.expectedSha256 {
        return Err(Failed(CONFLICT));
      }
      var mirrorUpload := supabase.PendingUploadOf(request.uploadId, subject.value, env.readMirror);
      AfterMirrorRead(p, m, request, subject.value, primaryUpload.value, mirrorUpload, env);
      if mirrorUpload.Err? {
        return Err(Failed(FromDataError(mirrorUpload.error)));
      }
      if !SameUploadIdentity(primaryUpload.value, mirrorUpload.value) {
        return Err(Failed(CONFLICT));
      }
      SoloStep(crypto, p, m, request, IdentityMatched(subject.value, primaryUpload.value), env);
      var verdict := VerifyObject(crypto.sha256, primaryUpload.value, env.download);
      if verdict.Err? {
        AnswerEnds(crypto, p, m, request, Failed(FromExternalError(verdict.error)), env);
        return Err(Failed(FromExternalError(verdict.error)));
      }
      return Ok((subject.value, primaryUpload.value));
    }

    method CompleteUpload(request: Request, env: Environment) returns (response: Response)
      requires primary != supabase && Possible(env)
      requires request.CompleteRequest? && UniqueIds(primary.rows) && UniqueIds(supabase.rows)
      modifies primary, supabase
      ensures EndsAs(old(EndingOf(request, Received, env)), response)
    {
      hide Solo, Conforms, Settle, VerifyCall, UniqueIds;
      var checked := CheckUpload(request, env);
      if checked.Err? {
        return checked.error;
      }
      var (subject, upload) := checked.value;
      ghost var p, m := primary.Contents(), supabase.Contents();
      SoloStep(crypto, p, m, request, ObjectVerified(subject, upload), env);
      var mirrored := supabase.MarkUploadVerified(request.uploadId, subject, request.sha256, env.verifyMirror);
      m := supabase.Contents();
      if mirrored.Err? {
        response := Failed(FromDataError(mirrored.error));
        AnswerEnds(crypto, p, m, request, response, env);
        return;
      }
      SoloStep(crypto, p, m, request, MirrorVerified(subject, upload), env);
      var verified := primary.MarkUploadVerified(request.uploadId, subject, request.sha256, env.verifyPrimary);
      p := primary.Contents();
      response := if verified.Err? then Failed(FromDataError(verified.error)) else UploadCompleted(request.uploadId);
      AnswerEnds(crypto, p, m, request, response, env);
    }
  }
}
