/**
 The streaming object verifier of the storage client (src/external.rs), against the check of the
 whole object it stands for.
 */
module ObjectVerification {
  import opened Results
  import opened Hex
  import opened Streams
  import opened ObjectKeys

  const MAX_UPLOAD_BYTES: nat := 10 * 1024 * 1024
  const U64_LIMIT: nat := 0x1_0000_0000_0000_0000

  datatype ExternalError = Rejected | Unavailable | ObjectMismatch | InvalidResponse

  /** `PendingUpload`: what the database declares about an object. */
  datatype PendingUpload = PendingUpload(
    id: Uuid,
    objectKey: string,
    expectedSha256: string,
    contentType: string,
    sizeBytes: nat,
    expiresAt: int)

  /** The storage service's answer: none at all, or status, headers and a chunked body. */
  datatype Download =
    | Unreachable
    | Answer(success: bool, contentType: Option<string>, contentLength: Option<nat>, chunks: seq<StreamItem>)

  /** The SHA-256 implementation, as any function of the bytes hashed. */
  type HashFunction = seq<byte> -> seq<byte>

  /** The running hash: `update` appends, `finalize` digests what was appended. */
  datatype Sha256 = Sha256(absorbed: seq<byte>) {
    function Update(chunk: seq<byte>): Sha256 {
      Sha256(absorbed + chunk)
    }

    function Finalize(hash: HashFunction): seq<byte> {
      hash(absorbed)
    }
  }

  predicate HeadersMatch(expected: PendingUpload, download: Download) {
    && download.Answer?
    && download.success
    && download.contentType == Some(expected.contentType)
    && (download.contentLength.Some? ==> download.contentLength.value == expected.sizeBytes)
  }

  /** The object, taken whole, is the declared one. */
  ghost predicate ObjectMatches(hash: HashFunction, expected: PendingUpload, contentType: string, content: seq<byte>) {
    && contentType == expected.contentType
    && |content| == expected.sizeBytes
    && Encode(hash(content)) == expected.expectedSha256
  }

  /** The verdict on a whole download, without any streaming. */
  ghost predicate Verified(hash: HashFunction, expected: PendingUpload, download: Download) {
    && ValidObjectKey(expected.objectKey)
    && expected.sizeBytes <= MAX_UPLOAD_BYTES
    && HeadersMatch(expected, download)
    && NoFailure(download.chunks)
    && ObjectMatches(hash, expected, download.contentType.value, Body(download.chunks))
  }

  ghost predicate Interrupted(expected: PendingUpload, download: Download) {
    && ValidObjectKey(expected.objectKey)
    && expected.sizeBytes <= MAX_UPLOAD_BYTES
    && (download.Unreachable?
        || (HeadersMatch(expected, download) && exists n: nat :: FailsAt(download.chunks, n, expected.sizeBytes)))
  }

  /** The verdict of `verify_object` as a function, for the protocol model. */
  ghost function Verdict(hash: HashFunction, expected: PendingUpload, download: Download): Result<(), ExternalError> {
    if !ValidObjectKey(expected.objectKey) then Err(InvalidResponse)
    else if Verified(hash, expected, download) then Ok(())
    else if Interrupted(expected, download) then Err(Unavailable)
    else Err(ObjectMismatch)
  }

  /**
   `verify_object`: the verdict depends on the concatenated body alone, however it was chunked,
   and an oversized body is refused without reading on.
   */
  method VerifyObject(hash: HashFunction, expected: PendingUpload, download: Download)
    returns (r: Result<(), ExternalError>)
    ensures r == Verdict(hash, expected, download)
    ensures r.Ok? <==> Verified(hash, expected, download)
  {
    if !ValidObjectKey(expected.objectKey) {
      return Err(InvalidResponse);
    }
    if expected.sizeBytes > MAX_UPLOAD_BYTES {
      return Err(ObjectMismatch);
    }
    if download.Unreachable? {
      return Err(Unavailable);
    }
    if !HeadersMatch(expected, download) {
      return Err(ObjectMismatch);
    }
    var chunks := download.chunks;
    var observedSize: nat := 0;
    var digest := Sha256([]);
    for i := 0 to |chunks|
      invariant NoFailure(chunks[..i]) && digest.absorbed == Body(chunks[..i])
      invariant observedSize == |digest.absorbed| <= expected.sizeBytes
    {
      if chunks[i].None? {
        assert FailsAt(chunks, i, expected.sizeBytes);
        return Err(Unavailable);
      }
      var chunk := chunks[i].value;
      assert chunks[..i + 1][..i] == chunks[..i];
      assert Body(chunks[..i + 1]) == Body(chunks[..i]) + chunk;
      observedSize := observedSize + |chunk|;
      if observedSize >= U64_LIMIT || observedSize > expected.sizeBytes || observedSize > MAX_UPLOAD_BYTES {
        OverflowIsFinal(chunks, i, expected.sizeBytes);
        return Err(ObjectMismatch);
      }
      digest := digest.Update(chunk);
    }
    assert chunks[..|chunks|] == chunks;
    assert forall n: nat :: !FailsAt(chunks, n, expected.sizeBytes);
    var observedDigest := LowerHex(digest.Finalize(hash));
    if observedSize != expected.sizeBytes || observedDigest != expected.expectedSha256 {
      return Err(ObjectMismatch);
    }
    return Ok(());
  }

  /** The download is the declared object, whole: type, length, size within ten MiB, and digest. */
  ghost predicate IsDeclaredObject(hash: HashFunction, expected: PendingUpload, download: Download) {
    && download.Answer? && download.success
    && download.contentType == Some(expected.contentType)
    && (download.contentLength.None? || download.contentLength.value == expected.sizeBytes)
    && (forall i :: 0 <= i < |download.chunks| ==> download.chunks[i].Some?)
    && |Body(download.chunks)| == expected.sizeBytes <= 10485760
    && Encode(hash(Body(download.chunks))) == expected.expectedSha256
  }

  /** The storage service failed: no answer at all, or a chunk lost before the body outgrew its size. */
  ghost predicate IsInterrupted(expected: PendingUpload, download: Download) {
    && expected.sizeBytes <= 10485760
    && (|| download.Unreachable?
        || (&& download.success
            && download.contentType == Some(expected.contentType)
            && (download.contentLength.None? || download.contentLength.value == expected.sizeBytes)
            && exists n: nat :: FailsAt(download.chunks, n, expected.sizeBytes)))
  }

  /** The verdict, by what came over the wire: one error per cause. */
  lemma VerdictExactly(hash: HashFunction, expected: PendingUpload, download: Download)
    ensures Verdict(hash, expected, download)
         == if !ValidObjectKey(expected.objectKey) then Err(InvalidResponse)
            else if IsDeclaredObject(hash, expected, download) then Ok(())
            else if IsInterrupted(expected, download) then Err(Unavailable)
            else Err(ObjectMismatch)
  {
    hide Encode, ValidObjectKey, Body;
  }

  /** Two ways of chunking the same complete body get the same verdict. */
  lemma ChunkingIsIrrelevant(
      hash: HashFunction, expected: PendingUpload, download: Download, chunks: seq<StreamItem>)
    requires download.Answer? && NoFailure(download.chunks) && NoFailure(chunks)
    requires Body(chunks) == Body(download.chunks)
    ensures Verdict(hash, expected, download) == Verdict(hash, expected, download.(chunks := chunks))
  {
  }
}
