/** The intake service: one upload, stored first and recorded second, with compensation. */
module EvidenceIntake {
  import opened Prelude
  import opened Tables
  import Content = ContentStore
  import Integrity
  import opened MediaTypes
  import opened Repository

  datatype ApiError =
    | CASE_NOT_FOUND | INVALID_FILENAME | INVALID_CLIENT_MIME | UPLOAD_TOO_LARGE | EMPTY_EVIDENCE
    | UNSUPPORTED_MEDIA_TYPE
    | UPLOAD_INTERRUPTED | STORAGE_UNAVAILABLE | DATABASE_UNAVAILABLE | EVIDENCE_CONSISTENCY_FAILURE

  datatype IntakeResult = IntakeResult(evidence: Id, contentDeduplicated: bool, associationReused: bool)

  /** What goes wrong outside the program during one upload. */
  datatype Weather = Weather(
    disk: Content.Faults, caseRead: bool, record: bool, undo: bool,
    objectDeleted: bool,   // from outside, before the final check
    finalLook: bool)       // the final check cannot inspect the object

  /** The final check answers no. */
  predicate LosesObject(w: Weather) {
    w.objectDeleted || w.finalLook
  }

  predicate HasControl(s: string) {
    exists i :: 0 <= i < |s| && (s[i] as int < 32 || s[i] as int == 127)
  }

  predicate NoControls(s: string) {
    forall i :: 0 <= i < |s| ==> s[i] as int >= 32 && s[i] as int != 127
  }

  predicate FilenameOk(filename: Option<string>) {
    filename.Some? && 1 <= |filename.value| <= 255 && NoControls(filename.value)
  }

  predicate DeclaredTypeOk(mime: Option<string>) {
    mime.Some? ==> |mime.value| <= 127 && NoControls(mime.value)
  }

  function FromStorage(e: Content.StorageError): ApiError {
    match e
    case TOO_LARGE => UPLOAD_TOO_LARGE
    case EMPTY_EVIDENCE => EMPTY_EVIDENCE
    case UNSUPPORTED => UNSUPPORTED_MEDIA_TYPE
    case READ => UPLOAD_INTERRUPTED
    case _ => STORAGE_UNAVAILABLE
  }

  /** With a working disk an upload that is not stored gets the error that its whole content calls for. */
  predicate RightError(e: ApiError, maxUpload: nat, allowed: set<MediaType>, script: seq<Content.ReadEvent>) {
    var content, breaks := Content.Delivered(script), Content.BreaksOff(script);
    && (e == UPLOAD_TOO_LARGE <==> |content| > maxUpload)
    && (e == UPLOAD_INTERRUPTED <==> |content| <= maxUpload && breaks)
    && (e == EMPTY_EVIDENCE <==> content == [] && !breaks)
    && (e == UNSUPPORTED_MEDIA_TYPE <==>
          && 0 < |content| <= maxUpload && !breaks
          && (DetectMediaType(content).None? || DetectMediaType(content).value !in allowed))
  }

  /** The refusals that come before anything is stored. */
  function Admission(cases: map<Id, CaseStatus>, w: Weather, c: Id, filename: Option<string>,
                     clientMime: Option<string>): Option<ApiError> {
    if w.caseRead then Some(DATABASE_UNAVAILABLE)
    else if c !in cases then Some(CASE_NOT_FOUND)
    else if !FilenameOk(filename) then Some(INVALID_FILENAME)
    else if !DeclaredTypeOk(clientMime) then Some(INVALID_CLIENT_MIME)
    else None
  }

  /** Which of an upload's own declarations is refused, and when. */
  lemma AdmissionExactly(cases: map<Id, CaseStatus>, w: Weather, c: Id, filename: Option<string>,
                         clientMime: Option<string>)
    ensures var refusal := Admission(cases, w, c, filename, clientMime);
      && (refusal == Some(DATABASE_UNAVAILABLE) <==> w.caseRead)
      && (refusal == Some(CASE_NOT_FOUND) <==> !w.caseRead && c !in cases)
      && (refusal == Some(INVALID_FILENAME) <==>
            && !w.caseRead && c in cases
            && (filename.None? || filename.value == "" || |filename.value| > 255 || HasControl(filename.value)))
      && (refusal == Some(INVALID_CLIENT_MIME) <==>
            && !w.caseRead && c in cases
            && filename.Some? && 1 <= |filename.value| <= 255 && !HasControl(filename.value)
            && clientMime.Some? && (|clientMime.value| > 127 || HasControl(clientMime.value)))
      && (refusal.Some? ==>
            refusal.value in {DATABASE_UNAVAILABLE, CASE_NOT_FOUND, INVALID_FILENAME, INVALID_CLIENT_MIME})
  {
  }

  class EvidenceIntakeService {
    const repository: Repository
    const storage: Content.LocalContentAddressedStorage

    ghost predicate Valid()
      reads repository, storage
    {
      SharedOk(repository.Now()) && storage.Valid()
    }

    constructor (repository: Repository, storage: Content.LocalContentAddressedStorage)
      requires SharedOk(repository.Now()) && storage.Valid()
      ensures Valid() && this.repository == repository && this.storage == storage
    {
      this.repository, this.storage := repository, storage;
    }

    /** put_stream, with its errors as the API reports them. */
    method Store(stream: Content.ByteStream, mine: Id, disk: Content.Faults)
      returns (r: Result<Content.StoredBlob, ApiError>)
      requires storage.Valid() && mine !in storage.staging
      modifies storage, stream
      ensures storage.Valid()
      ensures !disk.unlink ==> storage.staging == old(storage.staging)
      ensures forall h :: h in old(storage.objects) ==>
                h in storage.objects && storage.objects[h] == old(storage.objects[h])
      ensures r.Ok? ==>
                var content := Content.Delivered(old(stream.script));
                && Content.Uploadable(storage.maxUpload, storage.allowed, old(stream.script))
                && r.value.measured ==
                     Measured(Sha256(content), Sha512(content), |content|, DetectMediaType(content).value)
                && Sha256(content) in storage.objects && storage.objects[Sha256(content)] == content
                && (r.value.contentCreated <==> Sha256(content) !in old(storage.objects))
      ensures r.Err? ==>
                r.error in {UPLOAD_TOO_LARGE, EMPTY_EVIDENCE, UNSUPPORTED_MEDIA_TYPE, UPLOAD_INTERRUPTED,
                            STORAGE_UNAVAILABLE}
      ensures disk == Content.NO_FAULTS ==>
                && (r.Ok? <==> Content.Uploadable(storage.maxUpload, storage.allowed, old(stream.script)))
                && (r.Err? ==> RightError(r.error, storage.maxUpload, storage.allowed, old(stream.script)))
    {
      var blob := storage.PutStream(stream, mine, disk);
      return if blob.Err? then Err(FromStorage(blob.error)) else Ok(blob.value);
    }

    /**
     * The final object check; when it says no, the association is compensated, if it is still
     * there.
     */
    method CheckOrCompensate(m: Measured, evidence: Id, mine: Id, w: Weather) returns (kept: bool)
      requires Valid() && evidence in repository.minted && repository.minted[evidence].sha256 == m.sha256
      requires m.sha256 in storage.objects && m.byteLength == |m.sha256.of|
      modifies repository, storage`objects
      ensures Valid() && (kept <==> !LosesObject(w))
      ensures kept ==> repository.Now() == old(repository.Now())
      ensures storage.objects == if w.objectDeleted then old(storage.objects) - {m.sha256} else old(storage.objects)
      ensures !kept && evidence in repository.assets ==> w.undo || Restricted(repository.Rows(), evidence)
      ensures mine in repository.minted <==> mine in old(repository.minted)
      ensures RightRows(old(repository.Rows())) ==> RightRows(repository.Rows())
    {
      if w.objectDeleted { storage.objects := storage.objects - {m.sha256}; }
      kept := !w.finalLook && storage.Contains(m.sha256, m.byteLength);
      if !kept && !w.undo {
        ghost var before := repository.Now();
        repository.OthersCommit(mine);
        var done, written := repository.CompensateMissingObject(evidence, m.sha256, mine);
      }
    }

    /**
     * What an answer promises about the request's association. A success names one that was in
     * the tables when record_evidence returned, its own exactly when it is not reused; since then
     * only others acted. A consistency failure has none left, its own or reused, except that a
     * compensation can be prevented, by a run that already refers to it or by the database; any
     * other failure committed none.
     */
    ghost predicate Answered(c: Id, h: Sha256, mine: Id, w: Weather, r: Result<IntakeResult, ApiError>,
                             recorded: Shared)
      reads repository
    {
      match r
      case Ok(result) =>
        && !LosesObject(w) && result.evidence in recorded.rows.assets
        && recorded.rows.assets[result.evidence] == AssetRow(c, h) && h in recorded.rows.blobs
        && Interference(recorded, repository.Now(), mine)
        && (result.associationReused <==> result.evidence != mine)
        && (mine in repository.minted <==> !result.associationReused)
      case Err(e) =>
        if e == EVIDENCE_CONSISTENCY_FAILURE
        then
          && LosesObject(w) && (mine in repository.assets ==> w.undo || Restricted(repository.Rows(), mine))
          && (forall d | d in recorded.rows.assets && recorded.rows.assets[d] == AssetRow(c, h) ::
                d in repository.assets ==> w.undo || Restricted(repository.Rows(), d))
        else mine !in repository.minted
    }

    /** The guarded call of record_evidence: None is DATABASE_UNAVAILABLE. */
    method Associate(c: Id, m: Measured, mine: Id, fails: bool) returns (inserted: Option<Inserted>)
      requires Valid() && mine !in repository.minted
      modifies repository
      ensures Valid()
      ensures inserted.Some? ==>
                && inserted.value.evidence in repository.assets && m.sha256 in repository.blobs
                && repository.assets[inserted.value.evidence] == AssetRow(c, m.sha256)
                && (inserted.value.associationReused <==> inserted.value.evidence != mine)
      ensures mine in repository.minted <==> inserted.Some? && !inserted.value.associationReused
      ensures RightRow(m.sha256, m) ==>
                && (inserted.Some? && (!inserted.value.associationReused || RightRows(old(repository.Rows()))) ==>
                      m.sha256 in repository.blobs && repository.blobs[m.sha256] == m)
                && (RightRows(old(repository.Rows())) ==> RightRows(repository.Rows()))
    {
      if fails { return None; }
      ghost var before := repository.Now();
      var answer, written := repository.RecordEvidence(c, m, mine);
      if RightRow(m.sha256, m) {
        RecordedRightly(repository.flush, before, written, repository.Now(), mine, c, m, answer);
      }
      return if answer.Ok? then Some(answer.value) else None;
    }

    /** Recording, the final object check and the compensation, with others committing in between. */
    method RecordAndCheck(c: Id, m: Measured, contentCreated: bool, mine: Id, w: Weather)
      returns (r: Result<IntakeResult, ApiError>, ghost recorded: Shared)
      requires Valid() && mine !in repository.minted && m.sha256 in storage.objects && m.byteLength == |m.sha256.of|
      modifies repository, storage`objects
      ensures Valid() && Answered(c, m.sha256, mine, w, r, recorded)
      ensures !w.objectDeleted || r == Err(DATABASE_UNAVAILABLE) ==> storage.objects == old(storage.objects)
      ensures r.Ok? ==> r.value.contentDeduplicated == !contentCreated
      ensures r.Err? ==> r.error in {DATABASE_UNAVAILABLE, EVIDENCE_CONSISTENCY_FAILURE}
      ensures RightRow(m.sha256, m) ==>
                && (r.Ok? && (!r.value.associationReused || RightRows(old(repository.Rows()))) ==>
                      m.sha256 in recorded.rows.blobs && recorded.rows.blobs[m.sha256] == m)
                && (RightRows(old(repository.Rows())) ==> RightRows(repository.Rows()))
    {
      var inserted := Associate(c, m, mine, w.record);
      recorded := repository.Now();
      if inserted.None? { return Err(DATABASE_UNAVAILABLE), recorded; }
      repository.OthersCommit(mine);
      if RightRows(recorded.rows) { OthersKeepRight(recorded, repository.Now(), mine); }
      var kept := CheckOrCompensate(m, inserted.value.evidence, mine, w);
      if !kept { return Err(EVIDENCE_CONSISTENCY_FAILURE), recorded; }
      return Ok(IntakeResult(inserted.value.evidence, !contentCreated, inserted.value.associationReused)), recorded;
    }

    /**
     * The rest of ingest once the request is admitted. The blob row of a new association, and of
     * every one when all rows were right before, describes the stored object, which therefore
     * passes its integrity check.
     */
    method Preserve(c: Id, stream: Content.ByteStream, mine: Id, w: Weather)
      returns (r: Result<IntakeResult, ApiError>, ghost recorded: Shared)
      requires Valid() && mine !in repository.minted && mine !in storage.staging
      modifies repository, storage, stream
      ensures Valid() && Answered(c, Sha256(Content.Delivered(old(stream.script))), mine, w, r, recorded)
      ensures r.Ok? ==>
                var content := Content.Delivered(old(stream.script));
                && Content.Uploadable(storage.maxUpload, storage.allowed, old(stream.script))
                && Sha256(content) in storage.objects && storage.objects[Sha256(content)] == content
                && (r.value.contentDeduplicated <==> Sha256(content) in old(storage.objects))
      ensures r.Ok? && (!r.value.associationReused || RightRows(old(repository.Rows()))) ==>
                var content := Content.Delivered(old(stream.script));
                && Sha256(content) in recorded.rows.blobs
                && recorded.rows.blobs[Sha256(content)] ==
                     Measured(Sha256(content), Sha512(content), |content|, DetectMediaType(content).value)
      ensures RightRows(old(repository.Rows())) ==> RightRows(repository.Rows())
      ensures !w.disk.unlink ==> storage.staging == old(storage.staging)
      ensures !w.objectDeleted ==>
                forall h :: h in old(storage.objects) ==>
                  h in storage.objects && storage.objects[h] == old(storage.objects[h])
      ensures r.Err? ==>
                r.error in {UPLOAD_TOO_LARGE, EMPTY_EVIDENCE, UNSUPPORTED_MEDIA_TYPE, UPLOAD_INTERRUPTED,
                            STORAGE_UNAVAILABLE, DATABASE_UNAVAILABLE, EVIDENCE_CONSISTENCY_FAILURE}
      ensures w.disk == Content.NO_FAULTS ==>
                && (r.Err? && r.error !in {DATABASE_UNAVAILABLE, EVIDENCE_CONSISTENCY_FAILURE} ==>
                      RightError(r.error, storage.maxUpload, storage.allowed, old(stream.script)))
                && (Content.Uploadable(storage.maxUpload, storage.allowed, old(stream.script)) ==>
                      r.Ok? || r.error in {DATABASE_UNAVAILABLE, EVIDENCE_CONSISTENCY_FAILURE})
    {
      recorded := repository.Now();
      var blob := Store(stream, mine, w.disk);
      if blob.Err? { return Err(blob.error), recorded; }
      ghost var before := repository.Now();
      repository.OthersCommit(mine);
      if RightRows(before.rows) { OthersKeepRight(before, repository.Now(), mine); }
      r, recorded := RecordAndCheck(c, blob.value.measured, blob.value.contentCreated, mine, w);
    }

    /**
     * ingest. An accepted upload was associated with the case and is stored under its own hash,
     * and its recorded measurements are those of the stored object. While objects stay and can be
     * inspected, this request compensates nothing.
     */
    method Ingest(c: Id, stream: Content.ByteStream, filename: Option<string>, clientMime: Option<string>, mine: Id,
                  w: Weather)
      returns (r: Result<IntakeResult, ApiError>, ghost recorded: Shared)
      requires Valid() && mine !in repository.minted && mine !in storage.staging
      modifies repository, storage, stream
      ensures Valid() && Answered(c, Sha256(Content.Delivered(old(stream.script))), mine, w, r, recorded)
      ensures r.Ok? ==>
                var content := Content.Delivered(old(stream.script));
                && Content.Uploadable(storage.maxUpload, storage.allowed, old(stream.script))
                && Sha256(content) in storage.objects && storage.objects[Sha256(content)] == content
                && (r.value.contentDeduplicated <==> Sha256(content) in old(storage.objects))
      ensures r.Ok? && (!r.value.associationReused || RightRows(old(repository.Rows()))) ==>
                var content := Content.Delivered(old(stream.script));
                && Sha256(content) in recorded.rows.blobs
                && recorded.rows.blobs[Sha256(content)] ==
                     Measured(Sha256(content), Sha512(content), |content|, DetectMediaType(content).value)
                && Integrity.Classify(Integrity.Found(storage.objects[Sha256(content)]),
                                      recorded.rows.blobs[Sha256(content)]).VERIFIED?
      ensures RightRows(old(repository.Rows())) ==> RightRows(repository.Rows())
      ensures !w.disk.unlink ==> storage.staging == old(storage.staging)
      ensures !w.objectDeleted ==>
                forall h :: h in old(storage.objects) ==>
                  h in storage.objects && storage.objects[h] == old(storage.objects[h])
      ensures r == Err(CASE_NOT_FOUND) <==> !w.caseRead && c !in old(repository.cases)
      ensures r == Err(INVALID_FILENAME) <==>
                && !w.caseRead && c in old(repository.cases)
                && (filename.None? || filename.value == "" || |filename.value| > 255 || HasControl(filename.value))
      ensures r == Err(INVALID_CLIENT_MIME) <==>
                && !w.caseRead && c in old(repository.cases)
                && filename.Some? && 1 <= |filename.value| <= 255 && !HasControl(filename.value)
                && clientMime.Some? && (|clientMime.value| > 127 || HasControl(clientMime.value))
      ensures w.caseRead ==> r == Err(DATABASE_UNAVAILABLE)
      ensures w.caseRead || (r.Err? && r.error in {CASE_NOT_FOUND, INVALID_FILENAME, INVALID_CLIENT_MIME}) ==>
                storage.objects == old(storage.objects) && repository.Now() == old(repository.Now())
      ensures w.disk == Content.NO_FAULTS ==>
                && (r.Err? && r.error in {UPLOAD_TOO_LARGE, EMPTY_EVIDENCE, UNSUPPORTED_MEDIA_TYPE,
                                          UPLOAD_INTERRUPTED, STORAGE_UNAVAILABLE} ==>
                      RightError(r.error, storage.maxUpload, storage.allowed, old(stream.script)))
                && (Content.Uploadable(storage.maxUpload, storage.allowed, old(stream.script)) ==>
                      r.Ok? || r.error !in {UPLOAD_TOO_LARGE, EMPTY_EVIDENCE, UNSUPPORTED_MEDIA_TYPE,
                                            UPLOAD_INTERRUPTED, STORAGE_UNAVAILABLE})
    {
      AdmissionExactly(repository.cases, w, c, filename, clientMime);
      var refusal := Admission(repository.cases, w, c, filename, clientMime);
      if refusal.Some? {
        recorded := repository.Now();
        return Err(refusal.value), recorded;
      }
      r, recorded := Preserve(c, stream, mine, w);
    }
  }
}
