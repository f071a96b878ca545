/** Integrity verification before analysis, and the file-signature test that relies on it. */
module Integrity {
  import opened Prelude
  import opened MediaTypes
  import opened Tables
  import opened ContentStore

  datatype IntegrityStatus = VERIFIED | OBJECT_MISSING | SIZE_MISMATCH | HASH_MISMATCH

  datatype Verification = Verification(status: IntegrityStatus, sha256: Option<Sha256>, sha512: Option<Sha512>,
                                       byteLength: Option<nat>, startedAt: int, completedAt: int)

  /** What is found where a record points; unreadable also when the path cannot be resolved or opened safely. */
  datatype Look = Missing | Unreadable | Found(content: Bytes)

  function LookAt(objects: map<Sha256, Bytes>, unreadable: bool, expected: Measured): Look {
    if unreadable then Unreadable
    else if expected.sha256 !in objects then Missing
    else Found(objects[expected.sha256])
  }

  /** What an object read back amounts to. */
  function Classify(look: Look, expected: Measured): IntegrityStatus {
    if !look.Found? then OBJECT_MISSING
    else if |look.content| != expected.byteLength then SIZE_MISMATCH
    else if Sha256(look.content) != expected.sha256 || Sha512(look.content) != expected.sha512 then HASH_MISMATCH
    else VERIFIED
  }

  /** The content has exactly the recorded hashes and length. */
  predicate DescribedBy(content: Bytes, m: Measured) {
    Sha256(content) == m.sha256 && Sha512(content) == m.sha512 && |content| == m.byteLength
  }

  /** The validator of the verification record. */
  predicate ValidVerification(v: Verification, expected: Measured) {
    && v.startedAt <= v.completedAt
    && (v.status.VERIFIED? ==>
          (v.sha256, v.sha512, v.byteLength) ==
            (Some(expected.sha256), Some(expected.sha512), Some(expected.byteLength)))
  }

  function Failure(startedAt: int, completedAt: int): Verification {
    Verification(OBJECT_MISSING, None, None, None, startedAt, completedAt)
  }

  /**
   * verify: for every chunk size it classifies the whole object. It raises exactly when the clock
   * went back; for a missing object, whose record is made inside the guarded block and made again
   * when it is refused, exactly when the clock went back at both readings.
   */
  method Verify(objects: map<Sha256, Bytes>, unreadable: bool, expected: Measured, chunkBytes: nat, startedAt: int,
                completedAt: int, retriedAt: int)
    returns (r: Option<Verification>)
    requires chunkBytes > 0
    ensures var look := LookAt(objects, unreadable, expected);
      && (r.None? <==> completedAt < startedAt && (look.Missing? ==> retriedAt < startedAt))
      && (r.Some? ==> r.value.status == Classify(look, expected) && r.value.startedAt == startedAt)
      && (r.Some? ==> r.value.completedAt == if startedAt <= completedAt then completedAt else retriedAt)
      && (r.Some? ==> (r.value.status.OBJECT_MISSING? <==> unreadable || expected.sha256 !in objects))
      && (r.Some? && look.Found? ==>
            && (r.value.status.SIZE_MISMATCH? <==> |objects[expected.sha256]| != expected.byteLength)
            && (r.value.status.VERIFIED? <==> DescribedBy(objects[expected.sha256], expected)))
      && (r.Some? && look.Found? ==>
            (r.value.sha256, r.value.sha512, r.value.byteLength) ==
              (Some(Sha256(look.content)), Some(Sha512(look.content)), Some(|look.content|)))
      && (r.Some? && !look.Found? ==>
            (r.value.sha256, r.value.sha512, r.value.byteLength) == (None, None, None))
  {
    var look := LookAt(objects, unreadable, expected);
    var v: Verification;
    match look {
      case Missing =>
        v := Failure(startedAt, completedAt);
        if !ValidVerification(v, expected) { v := Failure(startedAt, retriedAt); }
      case Unreadable =>
        v := Failure(startedAt, completedAt);
      case Found(content) =>
        var sha256, sha512, byteLength := HashInChunks(content, chunkBytes);
        var status := VERIFIED;
        if byteLength != expected.byteLength {
          status := SIZE_MISMATCH;
        } else if sha256 != expected.sha256 || sha512 != expected.sha512 {
          status := HASH_MISMATCH;
        }
        v := Verification(status, Some(sha256), Some(sha512), Some(byteLength), startedAt, completedAt);
    }
    return if ValidVerification(v, expected) then Some(v) else None;
  }

  /** What intake records of an upload (see ContentStore.PutStream). */
  predicate RecordedOf(m: Measured, upload: Bytes) {
    && DetectMediaType(upload).Some?
    && m == Measured(Sha256(upload), Sha512(upload), |upload|, DetectMediaType(upload).value)
  }

  /** The file-signature adapter reads a fixed prefix of the object. */
  function FileSignature(content: Bytes): Option<MediaType> {
    DetectMediaType(Take(content, SIGNATURE_BYTES))
  }

  /**
   * An object verifies against an intake record exactly when it is the upload itself, and then
   * the file-signature test derives exactly the recorded type, whatever the chunking was.
   */
  lemma VerifiedIsTheUpload(content: Bytes, m: Measured, upload: Bytes)
    requires RecordedOf(m, upload)
    ensures Classify(Found(content), m).VERIFIED? <==> content == upload
    ensures Classify(Found(content), m).VERIFIED? ==> FileSignature(content) == Some(m.mime)
  {
    OnlyTheSignatureMatters(upload);
  }

  /** In an untampered store a recorded object is either absent or verified: no mismatch can arise. */
  lemma StoredObjectsVerify(objects: map<Sha256, Bytes>, m: Measured, upload: Bytes)
    requires RecordedOf(m, upload) && forall h :: h in objects ==> Sha256(objects[h]) == h
    ensures Classify(LookAt(objects, false, m), m) == if m.sha256 in objects then VERIFIED else OBJECT_MISSING
  {
    if m.sha256 in objects { VerifiedIsTheUpload(objects[m.sha256], m, upload); }
  }
}
