/** The finite intake model of formal/intake_api.qnt: its state, its actions and its safety invariant. */
module QuintModel {

  datatype AuthDecision = AuthPending | PublicProofVerified | SubjectVerified | AuthRejected

  datatype UploadState = UploadAbsent | UploadPending | UploadVerified | UploadRejected

  datatype State = State(
    auth: AuthDecision,
    requestValidated: bool,
    idempotencyBound: bool,
    digestBound: bool,
    primaryStored: bool,
    mirrorStored: bool,
    mirrorFailureRecorded: bool,
    primaryMarkedMirrored: bool,
    receiptIssued: bool,
    upload: UploadState,
    uploadPrimaryIntent: bool,
    uploadMirrorIntent: bool,
    uploadIdentityMatched: bool,
    uploadObjectVerified: bool,
    uploadMirrorVerified: bool,
    uploadPrimaryVerified: bool,
    uploadReceiptIssued: bool)

  const INITIAL: State :=
    State(AuthPending, false, false, false, false, false, false, false, false,
          UploadAbsent, false, false, false, false, false, false, false)

  predicate Authenticated(s: State) {
    s.auth == PublicProofVerified || s.auth == SubjectVerified
  }

  predicate AuthAction(s: State, t: State) {
    && s.auth == AuthPending
    && (t == s.(auth := PublicProofVerified) || t == s.(auth := SubjectVerified) || t == s.(auth := AuthRejected))
  }

  predicate ValidateAction(s: State, t: State) {
    && Authenticated(s) && !s.requestValidated
    && t == s.(requestValidated := true, idempotencyBound := true, digestBound := true)
  }

  predicate StorePrimary(s: State, t: State) {
    s.requestValidated && !s.primaryStored && t == s.(primaryStored := true)
  }

  predicate StoreMirror(s: State, t: State) {
    s.primaryStored && !s.mirrorStored && !s.mirrorFailureRecorded && t == s.(mirrorStored := true)
  }

  predicate RecordMirrorFailure(s: State, t: State) {
    s.primaryStored && !s.mirrorStored && !s.receiptIssued && t == s.(mirrorFailureRecorded := true)
  }

  predicate MarkPrimaryMirrored(s: State, t: State) {
    s.primaryStored && s.mirrorStored && !s.primaryMarkedMirrored && t == s.(primaryMarkedMirrored := true)
  }

  predicate IssueSubmissionReceipt(s: State, t: State) {
    s.primaryMarkedMirrored && !s.receiptIssued && t == s.(receiptIssued := true)
  }

  predicate SubmissionAction(s: State, t: State) {
    || StorePrimary(s, t)
    || StoreMirror(s, t)
    || RecordMirrorFailure(s, t)
    || MarkPrimaryMirrored(s, t)
    || IssueSubmissionReceipt(s, t)
  }

  predicate CreateUploadPrimaryIntent(s: State, t: State) {
    s.requestValidated && s.upload == UploadAbsent && t == s.(upload := UploadPending, uploadPrimaryIntent := true)
  }

  predicate CreateUploadMirrorIntent(s: State, t: State) {
    s.uploadPrimaryIntent && !s.uploadMirrorIntent && t == s.(uploadMirrorIntent := true)
  }

  predicate MatchUploadIdentity(s: State, t: State) {
    && s.uploadPrimaryIntent && s.uploadMirrorIntent && !s.uploadIdentityMatched
    && t == s.(uploadIdentityMatched := true)
  }

  predicate RejectUploadIdentity(s: State, t: State) {
    s.uploadPrimaryIntent && s.uploadMirrorIntent && !s.uploadIdentityMatched && t == s.(upload := UploadRejected)
  }

  predicate VerifyStorageObject(s: State, t: State) {
    && s.upload == UploadPending && s.uploadIdentityMatched && !s.uploadObjectVerified
    && t == s.(uploadObjectVerified := true)
  }

  predicate VerifyUploadMirror(s: State, t: State) {
    s.uploadObjectVerified && !s.uploadMirrorVerified && t == s.(uploadMirrorVerified := true)
  }

  predicate VerifyUploadPrimary(s: State, t: State) {
    && s.uploadMirrorVerified && !s.uploadPrimaryVerified
    && t == s.(uploadPrimaryVerified := true, upload := UploadVerified)
  }

  predicate IssueUploadReceipt(s: State, t: State) {
    s.uploadPrimaryVerified && !s.uploadReceiptIssued && t == s.(uploadReceiptIssued := true)
  }

  predicate UploadAction(s: State, t: State) {
    || CreateUploadPrimaryIntent(s, t)
    || CreateUploadMirrorIntent(s, t)
    || MatchUploadIdentity(s, t)
    || RejectUploadIdentity(s, t)
    || VerifyStorageObject(s, t)
    || VerifyUploadMirror(s, t)
    || VerifyUploadPrimary(s, t)
    || IssueUploadReceipt(s, t)
  }

  /** One action, or a stutter: the replay and retry actions of the model change nothing. */
  predicate Step(s: State, t: State) {
    t == s || AuthAction(s, t) || ValidateAction(s, t) || SubmissionAction(s, t) || UploadAction(s, t)
  }

  predicate AcceptedAuthPrecedesValidation(s: State) {
    s.requestValidated ==> Authenticated(s)
  }

  predicate RequestIdentityIsAtomic(s: State) {
    s.requestValidated == (s.idempotencyBound && s.digestBound)
  }

  predicate DualPersistenceOrder(s: State) {
    && (s.primaryStored ==> s.requestValidated)
    && (s.mirrorStored ==> s.primaryStored)
    && (s.primaryMarkedMirrored ==> s.primaryStored && s.mirrorStored)
    && (s.receiptIssued ==> s.primaryMarkedMirrored)
    && (s.mirrorFailureRecorded ==> s.primaryStored && !s.mirrorStored && !s.receiptIssued)
  }

  predicate UploadCompletionOrder(s: State) {
    && (s.uploadMirrorIntent ==> s.uploadPrimaryIntent)
    && (s.uploadIdentityMatched ==> s.uploadPrimaryIntent && s.uploadMirrorIntent)
    && (s.uploadObjectVerified ==> (s.upload == UploadPending || s.upload == UploadVerified) && s.uploadIdentityMatched)
    && (s.uploadMirrorVerified ==> s.uploadObjectVerified)
    && (s.uploadPrimaryVerified ==> s.uploadMirrorVerified)
    && (s.uploadReceiptIssued ==> s.upload == UploadVerified && s.uploadPrimaryVerified)
    && (s.upload == UploadRejected ==>
          !s.uploadObjectVerified && !s.uploadMirrorVerified && !s.uploadPrimaryVerified && !s.uploadReceiptIssued)
  }

  predicate ApiSafety(s: State) {
    && AcceptedAuthPrecedesValidation(s)
    && RequestIdentityIsAtomic(s)
    && DualPersistenceOrder(s)
    && UploadCompletionOrder(s)
  }

  /** What `api_safety` lacks to be inductive: a primary verification settles the upload status. */
  predicate Inductive(s: State) {
    ApiSafety(s) && (s.uploadPrimaryVerified ==> s.upload == UploadVerified)
  }

  /** `api_safety` alone is not inductive: one action can leave it, from a state no run reaches. */
  lemma SafetyAloneIsNotInductive() returns (s: State, t: State)
    ensures ApiSafety(s) && Step(s, t) && !ApiSafety(t)
    ensures forall states, i: nat :: IsRun(states) && i < |states| ==> states[i] != s
  {
    s := State(SubjectVerified, true, true, true, false, false, false, false, false,
               UploadPending, true, true, true, true, true, true, false);
    t := s.(uploadReceiptIssued := true);
    assert IssueUploadReceipt(s, t);
    forall states, i: nat | IsRun(states) && i < |states| ensures states[i] != s {
      RunsAreSafe(states, i);
    }
  }

  predicate SameUpload(s: State, t: State) {
    && t.upload == s.upload
    && t.uploadPrimaryVerified == s.uploadPrimaryVerified
    && t.uploadReceiptIssued == s.uploadReceiptIssued
  }

  lemma AuthActionKeepsSafety(s: State, t: State)
    requires ApiSafety(s) && AuthAction(s, t)
    ensures ApiSafety(t) && SameUpload(s, t)
  {
    assert !s.requestValidated && !s.primaryStored;
  }

  lemma ValidateActionKeepsSafety(s: State, t: State)
    requires ApiSafety(s) && ValidateAction(s, t)
    ensures ApiSafety(t) && SameUpload(s, t)
  {
  }

  lemma SubmissionActionKeepsSafety(s: State, t: State)
    requires ApiSafety(s) && SubmissionAction(s, t)
    ensures ApiSafety(t) && SameUpload(s, t)
  {
  }

  lemma UploadPreparationKeepsInvariant(s: State, t: State)
    requires Inductive(s)
    requires || CreateUploadPrimaryIntent(s, t) || CreateUploadMirrorIntent(s, t)
             || MatchUploadIdentity(s, t) || RejectUploadIdentity(s, t)
    ensures Inductive(t)
  {
  }

  lemma UploadVerificationKeepsInvariant(s: State, t: State)
    requires Inductive(s)
    requires || VerifyStorageObject(s, t) || VerifyUploadMirror(s, t)
             || VerifyUploadPrimary(s, t) || IssueUploadReceipt(s, t)
    ensures Inductive(t)
  {
  }

  lemma UploadActionKeepsInvariant(s: State, t: State)
    requires Inductive(s) && UploadAction(s, t)
    ensures Inductive(t)
  {
    hide Inductive, CreateUploadPrimaryIntent, CreateUploadMirrorIntent, MatchUploadIdentity, RejectUploadIdentity,
         VerifyStorageObject, VerifyUploadMirror, VerifyUploadPrimary, IssueUploadReceipt;
    if CreateUploadPrimaryIntent(s, t) || CreateUploadMirrorIntent(s, t)
       || MatchUploadIdentity(s, t) || RejectUploadIdentity(s, t) {
      UploadPreparationKeepsInvariant(s, t);
    } else {
      UploadVerificationKeepsInvariant(s, t);
    }
  }

  /** The strengthened invariant is inductive: every action keeps it in every state, reachable or not. */
  lemma StepKeepsInvariant(s: State, t: State)
    requires Inductive(s) && Step(s, t)
    ensures Inductive(t)
  {
    hide ApiSafety, AuthAction, ValidateAction, SubmissionAction, UploadAction;
    if AuthAction(s, t) {
      AuthActionKeepsSafety(s, t);
    } else if ValidateAction(s, t) {
      ValidateActionKeepsSafety(s, t);
    } else if SubmissionAction(s, t) {
      SubmissionActionKeepsSafety(s, t);
    } else if UploadAction(s, t) {
      UploadActionKeepsInvariant(s, t);
    } else {
      assert t == s;
    }
  }

  lemma OnlyReceiptFollows(s: State, t: State)
    requires ApiSafety(s) && s.uploadPrimaryVerified && s.upload != UploadVerified && UploadAction(s, t)
    ensures IssueUploadReceipt(s, t) && !ApiSafety(t)
  {
  }

  lemma NoReceiptYet(s: State, t: State)
    requires Inductive(s)
    ensures !(IssueUploadReceipt(s, t) && s.upload != UploadVerified)
  {
  }

  lemma ReceiptIsNew(s: State, t: State)
    requires IssueUploadReceipt(s, t)
    ensures !SameUpload(s, t)
  {
  }

  /** The one way a step can leave the safety invariant: a receipt for an upload that is not verified. */
  lemma SafetyIsLostExactly(s: State, t: State)
    requires ApiSafety(s) && Step(s, t)
    ensures !ApiSafety(t) <==> IssueUploadReceipt(s, t) && s.upload != UploadVerified
  {
    hide ApiSafety, AuthAction, ValidateAction, SubmissionAction, UploadAction, IssueUploadReceipt;
    if Inductive(s) {
      StepKeepsInvariant(s, t);
      NoReceiptYet(s, t);
    } else if UploadAction(s, t) {
      OnlyReceiptFollows(s, t);
    } else {
      if AuthAction(s, t) {
        AuthActionKeepsSafety(s, t);
      } else if ValidateAction(s, t) {
        ValidateActionKeepsSafety(s, t);
      } else if SubmissionAction(s, t) {
        SubmissionActionKeepsSafety(s, t);
      }
      if IssueUploadReceipt(s, t) {
        ReceiptIsNew(s, t);
      }
    }
  }

  ghost predicate IsRun(states: seq<State>) {
    && |states| > 0
    && states[0] == INITIAL
    && forall i :: 0 < i < |states| ==> Step(states[i - 1], states[i])
  }

  lemma {:induction false} RunsAreSafe(states: seq<State>, i: nat)
    requires IsRun(states) && i < |states|
    ensures Inductive(states[i]) && ApiSafety(states[i])
  {
    if i > 0 {
      RunsAreSafe(states, i - 1);
      StepKeepsInvariant(states[i - 1], states[i]);
    }
  }
}
