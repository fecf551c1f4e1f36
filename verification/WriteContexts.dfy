/** The database capability of src/persistence.rs: an object whose transactions change its tables. */
module WriteContexts {
  import opened Results
  import opened Hex
  import opened ObjectKeys
  import opened ObjectVerification
  import opened Persistence

  class WriteContext {
    var rows: Tables
    var outbox: seq<OutboxRow>

    constructor ()
      ensures Contents() == Database(map[], [])
    {
      rows, outbox := map[], [];
    }

    function Contents(): Database
      reads this
    {
      Database(rows, outbox)
    }

    method StorePreInterest(target: PersistenceTarget, context: SubmissionContext, input: Payload, call: Call)
      returns (r: Result<Stored, DataError>)
      requires input.PreInterestCreate?
      modifies this
      ensures Outcome(Contents(), r)
           == Settle(old(Contents()), Store(old(Contents()), target, context, input, call), call.fault)
    {
      if call.fault == FailBeforeCommit {
        return Err(DatabaseFailure);
      }
      var row := Row(context.canonicalId, context.payloadSha256, context.subject, input, call.databaseNow,
                     Mirroring(target.InitialMirrorStatus()));
      r := InsertSubmission(target, context, input, row);
      r := ReportCommit(r, call.fault);
    }

    method StoreUploadIntent(target: PersistenceTarget, context: SubmissionContext, input: Payload, call: Call)
      returns (r: Result<Stored, DataError>)
      requires input.UploadIntentCreate? && WellFormedPayload(input)
      modifies this
      ensures Outcome(Contents(), r)
           == Settle(old(Contents()), Store(old(Contents()), target, context, input, call), call.fault)
    {
      if call.fault == FailBeforeCommit {
        return Err(DatabaseFailure);
      }
      var expiresAt := call.serverNow + UPLOAD_LIFETIME_SECONDS;
      var objectKey := ObjectKey(input.uploadKind, context.canonicalId, input.sha256);
      if input.sizeBytes > I64_MAX {
        return Err(Invariant);
      }
      var k := RowKey(Upload, context.idempotencyKey);
      var stored: Stored;
      if k in rows {
        if rows[k].payloadSha256 != context.payloadSha256 {
          return Err(IdempotencyConflict);
        }
        stored := StoredFrom(rows[k], true);
      } else {
        if IdTaken(rows, Upload, context.canonicalId) {
          return Err(DatabaseFailure);
        }
        rows := rows[k := Row(context.canonicalId, context.payloadSha256, context.subject, input, expiresAt,
                              Uploading(objectKey, AwaitingUpload, None, None))];
        stored := Stored(context.canonicalId, expiresAt, Some(objectKey), false);
      }
      outbox := MaybeInsertOutbox(outbox, target, Upload, stored, context);
      r := ReportCommit(Ok(stored), call.fault);
    }

    method StoreApplication(target: PersistenceTarget, context: SubmissionContext, input: Payload, call: Call)
      returns (r: Result<Stored, DataError>)
      requires input.ApplicationCreate?
      modifies this
      ensures Outcome(Contents(), r)
           == Settle(old(Contents()), Store(old(Contents()), target, context, input, call), call.fault)
    {
      if call.fault == FailBeforeCommit {
        return Err(DatabaseFailure);
      }
      if !(-0x8000 <= input.preferredRoomOccupancy < 0x8000) {
        return Err(Invariant);
      }
      var matching :=
        MatchingUploads(rows, context.subject, input.resumeUploadId, input.photoIdUploadId, call.databaseNow);
      if |matching| != 2 {
        return Err(IntakeObjectUnavailable);
      }
      var row := Row(context.canonicalId, context.payloadSha256, context.subject, input, call.databaseNow,
                     Mirroring(target.InitialMirrorStatus()));
      r := InsertSubmission(target, context, input, row);
      r := ReportCommit(r, call.fault);
    }

    method StoreReferral(target: PersistenceTarget, context: SubmissionContext, input: Payload, call: Call)
      returns (r: Result<Stored, DataError>)
      requires input.ReferralCreate?
      modifies this
      ensures Outcome(Contents(), r)
           == Settle(old(Contents()), Store(old(Contents()), target, context, input, call), call.fault)
    {
      if call.fault == FailBeforeCommit {
        return Err(DatabaseFailure);
      }
      if context.subject.None? {
        return Err(Unauthenticated);
      }
      var row := Row(context.canonicalId, context.payloadSha256, context.subject, input, call.databaseNow,
                     Mirroring(target.InitialMirrorStatus()));
      r := InsertSubmission(target, context, input, row);
      r := ReportCommit(r, call.fault);
    }

    /** `insert_or_replay` followed by `maybe_insert_outbox`; an error leaves both tables alone. */
    method InsertSubmission(target: PersistenceTarget, context: SubmissionContext, input: Payload, row: Row)
      returns (r: Result<Stored, DataError>)
      modifies this
      ensures var (rows', result) :=
                InsertOrReplay(old(rows), RowKey(input.Kind(), context.idempotencyKey), row);
              && rows == rows'
              && r == result
              && outbox == if result.Err? then old(outbox)
                           else MaybeInsertOutbox(old(outbox), target, input.Kind(), result.value, context)
    {
      var k := RowKey(input.Kind(), context.idempotencyKey);
      var stored: Stored;
      if k in rows {
        if rows[k].payloadSha256 != row.payloadSha256 {
          return Err(IdempotencyConflict);
        }
        stored := StoredFrom(rows[k], true);
      } else {
        if IdTaken(rows, k.kind, row.id) {
          return Err(DatabaseFailure);
        }
        rows := rows[k := row];
        stored := StoredFrom(row, false);
      }
      outbox := MaybeInsertOutbox(outbox, target, input.Kind(), stored, context);
      return Ok(stored);
    }

    /** What the caller hears of a commit whose acknowledgement may be lost. */
    method ReportCommit<T>(result: Result<T, DataError>, fault: Fault) returns (r: Result<T, DataError>)
      ensures r == if fault == FailAfterCommit && result.Ok? then Err(DatabaseFailure) else result
    {
      if fault == FailAfterCommit && result.Ok? {
        return Err(DatabaseFailure);
      }
      return result;
    }

    method PendingUploadOf(uploadId: Uuid, subject: Option<string>, call: Call)
      returns (r: Result<PendingUpload, DataError>)
      ensures if call.fault == NoFault then IsPendingUpload(rows, uploadId, subject, call.databaseNow, r)
              else r == Err(DatabaseFailure)
    {
      if call.fault != NoFault {
        return Err(DatabaseFailure);
      }
      var open := OpenUploads(rows, uploadId, subject, call.databaseNow);
      if open == {} {
        return Err(IntakeObjectUnavailable);
      }
      var k :| k in open;
      return Ok(PendingFrom(rows[k]));
    }

    method MarkUploadVerified(uploadId: Uuid, subject: Option<string>, observedSha256: string, call: Call)
      returns (r: Result<(), DataError>)
      modifies this`rows
      ensures Outcome(Contents(), r)
           == VerifyCall(old(Contents()), uploadId, subject, observedSha256, call)
    {
      if !IsDigestText(observedSha256) {
        return Err(InvalidContext("observed_sha256"));
      }
      if call.fault == FailBeforeCommit {
        return Err(DatabaseFailure);
      }
      var affected := UploadsToVerify(rows, uploadId, subject, observedSha256, call.databaseNow);
      rows := VerifyRows(rows, affected, call.databaseNow);
      if call.fault == FailAfterCommit {
        return Err(DatabaseFailure);
      }
      if |affected| != 1 {
        return Err(IntakeObjectUnavailable);
      }
      return Ok(());
    }

    method AcknowledgeMirror(kind: SubmissionKind, id: Uuid, payloadSha256: string, call: Call)
      returns (r: Result<(), DataError>)
      modifies this
      ensures Outcome(Contents(), r)
           == Settle(old(Contents()), MarkMirrored(old(Contents()), kind, id, payloadSha256), call.fault)
    {
      if call.fault == FailBeforeCommit {
        return Err(DatabaseFailure);
      }
      var before := rows;
      if kind != Upload {
        var affected := RowsWithDigest(rows, kind, id, payloadSha256);
        rows := SetMirrorStatus(rows, affected, Mirrored);
        if |affected| != 1 {
          rows := before;
          return Err(Invariant);
        }
      }
      var entries := EntriesToMark(outbox, kind, id, payloadSha256);
      if |entries| != 1 {
        rows := before;
        return Err(Invariant);
      }
      outbox := MarkEntries(outbox, entries);
      r := ReportCommit(Ok(()), call.fault);
    }

    method ChargeMirrorFailure(kind: SubmissionKind, id: Uuid, errorCode: string, call: Call)
      returns (r: Result<(), DataError>)
      modifies this
      ensures Outcome(Contents(), r)
           == Settle(old(Contents()),
                     RecordMirrorFailure(old(Contents()), kind, id, errorCode, call.databaseNow), call.fault)
    {
      if call.fault == FailBeforeCommit {
        return Err(DatabaseFailure);
      }
      if !IsErrorCode(errorCode) {
        return Err(InvalidContext("mirror_error_code"));
      }
      var before := rows;
      if kind != Upload {
        var affected := RowsWithId(rows, kind, id);
        rows := SetMirrorStatus(rows, affected, RetryableFailure);
        if |affected| != 1 {
          rows := before;
          return Err(Invariant);
        }
      }
      var entries := EntriesToCharge(outbox, kind, id);
      if |entries| != 1 {
        rows := before;
        return Err(Invariant);
      }
      outbox := ChargeEntries(outbox, entries, errorCode, call.databaseNow);
      r := ReportCommit(Ok(()), call.fault);
    }
  }
}
