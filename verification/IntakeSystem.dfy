/**
 * Evidence intake and structural runs as one concurrent step system. The object directory, the
 * staging directory, the tables and every in-flight request are one state; an event is one
 * atomic step of one request, or of the world outside. Requests interleave in any order.
 */
module IntakeSystem {
  import opened Prelude
  import opened MediaTypes
  import opened Tables

  datatype Config = Config(maxUpload: nat, allowed: set<MediaType>, flush: Flush)

  datatype Rejection =
    | CASE_NOT_FOUND | UPLOAD_TOO_LARGE | EMPTY_EVIDENCE | UNSUPPORTED_MEDIA_TYPE | UPLOAD_INTERRUPTED
    | STORAGE_UNAVAILABLE | OBJECT_MISMATCH

  /** Where put_stream stands when its `finally` removes the staging file. */
  datatype Put = Stored(m: Measured, created: bool) | Rejected(why: Rejection)

  /** The program counter of one `ingest`, with its local variables. */
  datatype IngestPc =
    | Staging(hashed: Bytes)                                        // reading, hashing and writing chunks
    | Sealed(m: Measured)                                           // about to link
    | ExistingFound(m: Measured)                                    // link said the object exists
    | Unlinking(put: Put)
    | Reading(m: Measured, created: bool)                           // record_evidence: SELECTs next
    | Committing(m: Measured, created: bool, seen: Seen)            // record_evidence: INSERTs next
    | Conflicted(m: Measured, created: bool)                        // after an IntegrityError
    | Checking(m: Measured, created: bool, evidence: Id, reused: bool)
    | Undoing(m: Measured, created: bool, evidence: Id, reused: bool)
    | Deleting(m: Measured, created: bool, evidence: Id, reused: bool, loadedCase: Option<Id>)
    | Accepted(m: Measured, created: bool, evidence: Id, reused: bool)
    | Inconsistent(m: Measured, created: bool, evidence: Id, reused: bool)  // EVIDENCE_CONSISTENCY_FAILURE
    | Unrecorded(m: Measured, created: bool, mismatch: bool)        // DATABASE_UNAVAILABLE
    | Littered(put: Put)                                            // the staging file could not be removed
    | Refused(why: Rejection)

  datatype Ingest = Ingest(caseId: Id, pc: IngestPc)

  /** What _persist_success hands to finalize_structural_run. */
  datatype Plan = Plan(status: RunStatus, tests: seq<string>, artifacts: seq<string>, report: ReportRow)

  /** Stranded: the database failed while the end was recorded. OutOfTime: the clock went back. */
  datatype End = Returned(status: RunStatus) | NotStarted | ActiveElsewhere | Stranded | OutOfTime

  /** The program counter of one `start`; its run is named by the request. */
  datatype StartPc =
    | Creating(sha256: Sha256)
    | Querying
    | Verifying(sha256: Sha256)
    | Analyzing
    | Finishing(plan: Plan)
    | RecordingFailure
    | RecordingRefusal
    | Ended(end: End)

  datatype Start = Start(caseId: Id, evidence: Id, pc: StartPc)

  datatype State = State(
    files: map<Id, Bytes>,          // file contents, by the upload that created the file
    staged: set<Id>,                // staging names still present
    objects: map<Sha256, Id>,       // content names: each is a hard link to an upload's file
    db: Tables,
    minted: map<Id, AssetRow>,      // every association ever committed
    ingests: map<Id, Ingest>,
    starts: map<Id, Start>,
    tampered: bool,                 // an object was deleted from outside
    misread: bool)                  // a stored object could not be inspected or read

  const INIT := State(map[], {}, map[], EMPTY, map[], map[], map[], false, false)

  /** So far no object was deleted from outside, and every look at a stored object worked. */
  predicate Calm(s: State) {
    !s.tampered && !s.misread
  }

  datatype IngestStep =
    | Begin(c: Id)
    | Chunk(data: Bytes)
    | ReadFault
    | WriteFault(data: Bytes)
    | EndOfStream
    | Link
    | LinkFault
    | VerifyExisting
    | ExistingUnreadable
    | Unlink
    | UnlinkFault
    | ReadRecord
    | CommitRecord
    | ReadAfterConflict
    | CheckObject
    | CheckFault
    | ReadForUndo
    | CommitUndo
    | DatabaseFault

  datatype StartStep =
    | Open(c: Id, e: Id)
    | InsertRun
    | QueryActive
    | VerifyEvidence
    | EvidenceUnreadable
    | Analyze(plan: Option<Plan>)   // None: an adapter, rendering or result storage raised
    | FinalizeRun
    | StartDatabaseFault
    | ClockFault                    // a record refuses a completion before its start, outside any guard

  datatype Event =
    | OpenCase(c: Id)
    | OutsideDelete(h: Sha256)
    | OfIngest(r: Id, ingest: IngestStep)
    | OfStart(r: Id, start: StartStep)

  // ---------------------------------------------------------------- steps

  // Each step is a relation: when it is enabled, and the one state it leads to.

  function Goto(s: State, r: Id, pc: IngestPc): map<Id, Ingest>
    requires r in s.ingests
  {
    s.ingests[r := s.ingests[r].(pc := pc)]
  }

  function StartGoto(s: State, r: Id, pc: StartPc): map<Id, Start>
    requires r in s.starts
  {
    s.starts[r := s.starts[r].(pc := pc)]
  }

  function MeasuredAs(c: Bytes, mime: MediaType): Measured {
    Measured(Sha256(c), Sha512(c), |c|, mime)
  }

  /** The stream ended: empty uploads and unlisted signatures are refused, others are sealed. */
  function Seal(cfg: Config, hashed: Bytes): IngestPc {
    var mime := DetectMediaType(Take(hashed, SIGNATURE_BYTES));
    if hashed == [] then Unlinking(Rejected(EMPTY_EVIDENCE))
    else if mime.None? || mime.value !in cfg.allowed then Unlinking(Rejected(UNSUPPORTED_MEDIA_TYPE))
    else Sealed(MeasuredAs(hashed, mime.value))
  }

  // Steps of put_stream: staging, promotion by hard link, removal of the staging name.

  ghost predicate BeginIngestStep(s: State, t: State, r: Id, c: Id) {
    && r !in s.ingests && r !in s.files && r !in s.staged
    && var known := c in s.db.cases;
       t == s.(ingests := s.ingests[r := Ingest(c, if known then Staging([]) else Refused(CASE_NOT_FOUND))],
               files := if known then s.files[r := []] else s.files,
               staged := if known then s.staged + {r} else s.staged)
  }

  ghost predicate ChunkStep(cfg: Config, s: State, t: State, r: Id, data: Bytes) {
    && r in s.ingests && r in s.files && s.ingests[r].pc.Staging? && data != []
    && var hashed := s.ingests[r].pc.hashed + data;
       var fits := |hashed| <= cfg.maxUpload;
       t == s.(ingests := Goto(s, r, if fits then Staging(hashed) else Unlinking(Rejected(UPLOAD_TOO_LARGE))),
               files := if fits then s.files[r := s.files[r] + data] else s.files)
  }

  /** The stream failed, or the disk failed after `data` reached the staging file. */
  ghost predicate StagingFaultStep(s: State, t: State, r: Id, data: Bytes, why: Rejection) {
    && r in s.ingests && r in s.files && s.ingests[r].pc.Staging?
    && t == s.(ingests := Goto(s, r, Unlinking(Rejected(why))), files := s.files[r := s.files[r] + data])
  }

  ghost predicate EndOfStreamStep(cfg: Config, s: State, t: State, r: Id) {
    && r in s.ingests && s.ingests[r].pc.Staging?
    && t == s.(ingests := Goto(s, r, Seal(cfg, s.ingests[r].pc.hashed)))
  }

  /** A hard link never replaces an existing name. */
  ghost predicate LinkStep(s: State, t: State, r: Id) {
    && r in s.ingests && s.ingests[r].pc.Sealed?
    && var m := s.ingests[r].pc.m;
       var taken := m.sha256 in s.objects;
       t == s.(ingests := Goto(s, r, if taken then ExistingFound(m) else Unlinking(Stored(m, true))),
               objects := if taken then s.objects else s.objects[m.sha256 := r])
  }

  ghost predicate LinkFaultStep(s: State, t: State, r: Id) {
    && r in s.ingests && s.ingests[r].pc.Sealed?
    && t == s.(ingests := Goto(s, r, Unlinking(Rejected(STORAGE_UNAVAILABLE))))
  }

  /** The bytes behind a content name, if it is there. */
  function ObjectBytes(s: State, h: Sha256): Option<Bytes> {
    if h in s.objects && s.objects[h] in s.files then Some(s.files[s.objects[h]]) else None
  }

  predicate Matches(bytes: Option<Bytes>, m: Measured) {
    bytes.Some? && Sha256(bytes.value) == m.sha256 && Sha512(bytes.value) == m.sha512 && |bytes.value| == m.byteLength
  }

  ghost predicate VerifyExistingStep(s: State, t: State, r: Id) {
    && r in s.ingests && s.ingests[r].pc.ExistingFound?
    && var m := s.ingests[r].pc.m;
       var put := if Matches(ObjectBytes(s, m.sha256), m) then Stored(m, false) else Rejected(OBJECT_MISMATCH);
       t == s.(ingests := Goto(s, r, Unlinking(put)))
  }

  /** The existing object cannot be inspected or hashed: that too is reported as a mismatch. */
  ghost predicate ExistingUnreadableStep(s: State, t: State, r: Id) {
    && r in s.ingests && s.ingests[r].pc.ExistingFound?
    && t == s.(ingests := Goto(s, r, Unlinking(Rejected(OBJECT_MISMATCH))), misread := true)
  }

  ghost predicate UnlinkStep(s: State, t: State, r: Id) {
    && r in s.ingests && s.ingests[r].pc.Unlinking?
    && var put := s.ingests[r].pc.put;
       t == s.(ingests := Goto(s, r, if put.Stored? then Reading(put.m, put.created) else Refused(put.why)),
               staged := s.staged - {r})
  }

  ghost predicate UnlinkFaultStep(s: State, t: State, r: Id) {
    && r in s.ingests && s.ingests[r].pc.Unlinking?
    && t == s.(ingests := Goto(s, r, Littered(s.ingests[r].pc.put)))
  }

  // Steps of record_evidence, the final object check and the compensation.

  function AfterRead(m: Measured, created: bool, look: ReadOutcome): IngestPc {
    match look
    case NoCase => Unrecorded(m, created, false)
    case Mismatch => Unrecorded(m, created, true)
    case Reuse(evidence) => Checking(m, created, evidence, true)
    case Insert(seen) => Committing(m, created, seen)
  }

  ghost predicate ReadRecordStep(s: State, t: State, r: Id) {
    && r in s.ingests && s.ingests[r].pc.Reading?
    && var pc := s.ingests[r].pc;
       t == s.(ingests := Goto(s, r, AfterRead(pc.m, pc.created, RecordRead(s.db, s.ingests[r].caseId, pc.m))))
  }

  /** The constraints let this request's INSERTs through. */
  predicate Admitted(s: State, r: Id)
    requires r in s.ingests && s.ingests[r].pc.Committing?
  {
    RecordAllowed(s.db, r, s.ingests[r].caseId, s.ingests[r].pc.m, s.ingests[r].pc.seen)
  }

  ghost predicate CommitRecordStep(cfg: Config, s: State, t: State, r: Id) {
    && r in s.ingests && s.ingests[r].pc.Committing?
    && var Ingest(c, pc) := s.ingests[r];
       var admitted := Admitted(s, r);
       t == s.(ingests := Goto(s, r, if admitted then Checking(pc.m, pc.created, r, false)
                                     else Conflicted(pc.m, pc.created)),
               minted := if admitted then s.minted[r := AssetRow(c, pc.m.sha256)] else s.minted,
               db := if admitted then RecordCommit(cfg.flush, s.db, r, c, pc.m, pc.seen).value else s.db)
  }

  ghost predicate ReadAfterConflictStep(s: State, t: State, r: Id) {
    && r in s.ingests && s.ingests[r].pc.Conflicted?
    && var pc := s.ingests[r].pc;
       var found := FindCaseBlob(s.db, s.ingests[r].caseId, pc.m.sha256);
       var next := if found.None? then Unrecorded(pc.m, pc.created, false)
                   else Checking(pc.m, pc.created, found.value, true);
       t == s.(ingests := Goto(s, r, next))
  }

  ghost predicate CheckObjectStep(s: State, t: State, r: Id) {
    && r in s.ingests && s.ingests[r].pc.Checking?
    && var pc := s.ingests[r].pc;
       var bytes := ObjectBytes(s, pc.m.sha256);
       var next := if bytes.Some? && |bytes.value| == pc.m.byteLength
                   then Accepted(pc.m, pc.created, pc.evidence, pc.reused)
                   else Undoing(pc.m, pc.created, pc.evidence, pc.reused);
       t == s.(ingests := Goto(s, r, next))
  }

  /** The final check cannot inspect the object: it answers no. */
  ghost predicate CheckFaultStep(s: State, t: State, r: Id) {
    && r in s.ingests && s.ingests[r].pc.Checking?
    && var pc := s.ingests[r].pc;
       t == s.(ingests := Goto(s, r, Undoing(pc.m, pc.created, pc.evidence, pc.reused)), misread := true)
  }

  ghost predicate ReadForUndoStep(s: State, t: State, r: Id) {
    && r in s.ingests && s.ingests[r].pc.Undoing?
    && var pc := s.ingests[r].pc;
       var loaded := if pc.evidence in s.db.assets then Some(s.db.assets[pc.evidence].caseId) else None;
       t == s.(ingests := Goto(s, r, Deleting(pc.m, pc.created, pc.evidence, pc.reused, loaded)))
  }

  /** Rolled back by a RESTRICT key, the failure is only logged. */
  ghost predicate CommitUndoStep(s: State, t: State, r: Id) {
    && r in s.ingests && s.ingests[r].pc.Deleting?
    && var pc := s.ingests[r].pc;
       var undone := Compensate(s.db, pc.evidence, pc.m.sha256, pc.loadedCase);
       t == s.(ingests := Goto(s, r, Inconsistent(pc.m, pc.created, pc.evidence, pc.reused)),
               db := if undone.Some? then undone.value else s.db)
  }

  ghost predicate DatabaseFaultStep(s: State, t: State, r: Id) {
    && r in s.ingests
    && var pc := s.ingests[r].pc;
       var recording := pc.Reading? || pc.Committing? || pc.Conflicted?;
       && (recording || pc.Undoing? || pc.Deleting?)
       && t == s.(ingests := Goto(s, r, if recording then Unrecorded(pc.m, pc.created, false)
                                        else Inconsistent(pc.m, pc.created, pc.evidence, pc.reused)))
  }

  // Steps of StructuralAnalysisService.start.

  ghost predicate OpenStep(s: State, t: State, r: Id, c: Id, e: Id) {
    && r !in s.starts
    && var found := c in s.db.cases && e in s.db.assets && s.db.assets[e].caseId == c;
       t == s.(starts := s.starts[r := Start(c, e,
                                             if found then Creating(s.db.assets[e].sha256) else Ended(NotStarted))])
  }

  ghost predicate InsertRunStep(s: State, t: State, r: Id) {
    && r in s.starts && s.starts[r].pc.Creating?
    && var Start(c, e, pc) := s.starts[r];
       var allowed := RunAllowed(s.db, r, c, e, ANALYSIS_PROFILE);
       t == s.(starts := StartGoto(s, r, if allowed then Verifying(pc.sha256) else Querying),
               db := s.db.(runs := if allowed then s.db.runs[r := RunRow(c, e, ANALYSIS_PROFILE, RUNNING, None)]
                                   else s.db.runs))
  }

  ghost predicate QueryActiveStep(s: State, t: State, r: Id) {
    && r in s.starts && s.starts[r].pc.Querying?
    && var blocked := exists q :: q in s.db.runs && Active(s.db.runs[q], s.starts[r].evidence, ANALYSIS_PROFILE);
       t == s.(starts := StartGoto(s, r, Ended(if blocked then ActiveElsewhere else NotStarted)))
  }

  ghost predicate VerifyEvidenceStep(s: State, t: State, r: Id) {
    && r in s.starts && s.starts[r].pc.Verifying?
    && var h := s.starts[r].pc.sha256;
       var verified := h in s.db.blobs && Matches(ObjectBytes(s, h), s.db.blobs[h]);
       t == s.(starts := StartGoto(s, r, if verified then Analyzing else RecordingRefusal))
  }

  /** The object cannot be read: integrity verification reports it as missing. */
  ghost predicate EvidenceUnreadableStep(s: State, t: State, r: Id) {
    && r in s.starts && s.starts[r].pc.Verifying?
    && t == s.(starts := StartGoto(s, r, RecordingRefusal), misread := true)
  }

  ghost predicate AnalyzeStep(s: State, t: State, r: Id, plan: Option<Plan>) {
    && r in s.starts && s.starts[r].pc.Analyzing?
    && (plan.Some? ==> plan.value.status.COMPLETED? || plan.value.status.PARTIAL?)
    && t == s.(starts := StartGoto(s, r, if plan.Some? then Finishing(plan.value) else RecordingFailure))
  }

  predicate AtFinalize(pc: StartPc) {
    pc.Finishing? || pc.RecordingFailure? || pc.RecordingRefusal?
  }

  /** What finalize_structural_run is asked to write at each of its three call sites. */
  function FinalizeArgs(s: State, r: Id): (tx: Tx)
    requires r in s.starts && AtFinalize(s.starts[r].pc)
    ensures tx.Finish?
  {
    var Start(c, e, pc) := s.starts[r];
    match pc
    case Finishing(plan) => Finish(r, RunDoc(plan.status, true), plan.tests, plan.artifacts,
                                   Some(plan.report.(caseId := c, evidence := e)))
    case RecordingFailure => Finish(r, RunDoc(FAILED, true), ["structural.analysis-internal.v1"], [], None)
    case _ => Finish(r, RunDoc(REFUSED, false), ["structural.evidence-integrity.v1"], [], None)
  }

  function FinalizeAttempt(s: State, r: Id): FinalizeOutcome
    requires r in s.starts && AtFinalize(s.starts[r].pc)
  {
    var tx := FinalizeArgs(s, r);
    Finalize(s.db, r, tx.doc, tx.tests, tx.artifacts, tx.report)
  }

  ghost predicate FinalizeRunStep(s: State, t: State, r: Id) {
    && r in s.starts && AtFinalize(s.starts[r].pc)
    && var outcome := FinalizeAttempt(s, r);
       var next := if outcome.Finalized? then Ended(Returned(FinalizeArgs(s, r).doc.status))
                   else if s.starts[r].pc.Finishing? then RecordingFailure
                   else Ended(Stranded);
       t == s.(starts := StartGoto(s, r, next), db := if outcome.Finalized? then outcome.t else s.db)
  }

  ghost predicate StartDatabaseFaultStep(s: State, t: State, r: Id) {
    && r in s.starts
    && var pc := s.starts[r].pc;
       && (pc.Creating? || pc.Querying? || AtFinalize(pc))
       && t == s.(starts := StartGoto(s, r, if pc.Finishing? then RecordingFailure
                                            else Ended(if AtFinalize(pc) then Stranded else NotStarted)))
  }

  /** The wall clock went back between two readings that go into one record. */
  ghost predicate ClockFaultStep(s: State, t: State, r: Id) {
    && r in s.starts
    && (s.starts[r].pc.Verifying? || s.starts[r].pc.RecordingFailure? || s.starts[r].pc.RecordingRefusal?)
    && t == s.(starts := StartGoto(s, r, Ended(OutOfTime)))
  }

  // ---------------------------------------------------------------- runs of the system

  ghost predicate IngestNext(cfg: Config, s: State, t: State, r: Id, step: IngestStep) {
    match step
    case Begin(c) => BeginIngestStep(s, t, r, c)
    case Chunk(data) => ChunkStep(cfg, s, t, r, data)
    case ReadFault => StagingFaultStep(s, t, r, [], UPLOAD_INTERRUPTED)
    case WriteFault(data) => StagingFaultStep(s, t, r, data, STORAGE_UNAVAILABLE)
    case EndOfStream => EndOfStreamStep(cfg, s, t, r)
    case Link => LinkStep(s, t, r)
    case LinkFault => LinkFaultStep(s, t, r)
    case VerifyExisting => VerifyExistingStep(s, t, r)
    case ExistingUnreadable => ExistingUnreadableStep(s, t, r)
    case Unlink => UnlinkStep(s, t, r)
    case UnlinkFault => UnlinkFaultStep(s, t, r)
    case ReadRecord => ReadRecordStep(s, t, r)
    case CommitRecord => CommitRecordStep(cfg, s, t, r)
    case ReadAfterConflict => ReadAfterConflictStep(s, t, r)
    case CheckObject => CheckObjectStep(s, t, r)
    case CheckFault => CheckFaultStep(s, t, r)
    case ReadForUndo => ReadForUndoStep(s, t, r)
    case CommitUndo => CommitUndoStep(s, t, r)
    case DatabaseFault => DatabaseFaultStep(s, t, r)
  }

  ghost predicate StartNext(s: State, t: State, r: Id, step: StartStep) {
    match step
    case Open(c, e) => OpenStep(s, t, r, c, e)
    case InsertRun => InsertRunStep(s, t, r)
    case QueryActive => QueryActiveStep(s, t, r)
    case VerifyEvidence => VerifyEvidenceStep(s, t, r)
    case EvidenceUnreadable => EvidenceUnreadableStep(s, t, r)
    case Analyze(plan) => AnalyzeStep(s, t, r, plan)
    case FinalizeRun => FinalizeRunStep(s, t, r)
    case StartDatabaseFault => StartDatabaseFaultStep(s, t, r)
    case ClockFault => ClockFaultStep(s, t, r)
  }

  ghost predicate OpenCaseStep(s: State, t: State, c: Id) {
    c !in s.db.cases && t == s.(db := s.db.(cases := s.db.cases[c := CREATED]))
  }

  ghost predicate OutsideDeleteStep(s: State, t: State, h: Sha256) {
    t == s.(objects := s.objects - {h}, tampered := true)
  }

  ghost predicate Next(cfg: Config, s: State, e: Event, t: State) {
    match e
    case OpenCase(c) => OpenCaseStep(s, t, c)
    case OutsideDelete(h) => OutsideDeleteStep(s, t, h)
    case OfIngest(r, step) => IngestNext(cfg, s, t, r, step)
    case OfStart(r, step) => StartNext(s, t, r, step)
  }

  ghost predicate StepAt(cfg: Config, events: seq<Event>, states: seq<State>, i: int) {
    0 <= i < |events| && i + 1 < |states| && Next(cfg, states[i], events[i], states[i + 1])
  }

  /** A run of the system: any sequence of enabled events from the empty deployment. */
  ghost predicate Behavior(cfg: Config, events: seq<Event>, states: seq<State>) {
    && |states| == |events| + 1
    && states[0] == INIT
    && forall i {:trigger StepAt(cfg, events, states, i)} :: 0 <= i < |events| ==> StepAt(cfg, events, states, i)
  }
}
