/** What every step of the intake system keeps. */
module IntakeInvariant {
  import opened Prelude
  import opened MediaTypes
  import opened Tables
  import opened IntakeSystem

  // ---------------------------------------------------------------- what a program counter carries

  function MeasuredOf(pc: IngestPc): Option<Measured> {
    match pc
    case Staging(_) => None
    case Refused(_) => None
    case Unlinking(put) => if put.Stored? then Some(put.m) else None
    case Littered(put) => if put.Stored? then Some(put.m) else None
    case _ => Some(pc.m)
  }

  /** Whether promotion is over, and if so whether this upload's link made the object. */
  function CreatedOf(pc: IngestPc): Option<bool> {
    match pc
    case Staging(_) => None
    case Refused(_) => None
    case Sealed(_) => None
    case ExistingFound(_) => None
    case Unlinking(put) => if put.Stored? then Some(put.created) else None
    case Littered(put) => if put.Stored? then Some(put.created) else None
    case _ => Some(pc.created)
  }

  predicate HoldsEvidence(pc: IngestPc) {
    pc.Checking? || pc.Undoing? || pc.Deleting? || pc.Accepted? || pc.Inconsistent?
  }

  predicate HoldsStaging(pc: IngestPc) {
    pc.Staging? || pc.Sealed? || pc.ExistingFound? || pc.Unlinking? || pc.Littered?
  }

  /** Program counters that only outside deletion or a failed look at an object can lead to. */
  predicate NeedsTrouble(pc: IngestPc) {
    || pc.Undoing? || pc.Deleting? || pc.Inconsistent?
    || ((pc.Unlinking? || pc.Littered?) && pc.put.Rejected? && pc.put.why.OBJECT_MISMATCH?)
    || (pc.Refused? && pc.why.OBJECT_MISMATCH?)
  }

  predicate RunLive(pc: StartPc) {
    pc.Verifying? || pc.Analyzing? || pc.Finishing? || pc.RecordingFailure? || pc.RecordingRefusal?
  }

  /** A start that ended without ending its run. */
  predicate Abandoned(pc: StartPc) {
    pc.Ended? && (pc.end.Stranded? || pc.end.OutOfTime?)
  }

  // ---------------------------------------------------------------- the invariant

  /** The measurements are those of the content, of a listed type and a permitted size. */
  ghost predicate Faithful(cfg: Config, m: Measured, c: Bytes) {
    && DetectMediaType(Take(c, SIGNATURE_BYTES)).Some?
    && DetectMediaType(Take(c, SIGNATURE_BYTES)).value in cfg.allowed
    && m == MeasuredAs(c, DetectMediaType(Take(c, SIGNATURE_BYTES)).value)
    && 0 < |c| <= cfg.maxUpload
  }

  /** Without outside deletion a promoted object stays, linked to the upload that made it. */
  ghost predicate Promoted(s: State, r: Id, h: Sha256, created: bool) {
    !s.tampered ==> h in s.objects && (created <==> s.objects[h] == r)
  }

  /** The association a request answers for was committed, by itself exactly when it is not reused. */
  ghost predicate EvidenceOk(s: State, r: Id, h: Sha256, evidence: Id, reused: bool)
    requires r in s.ingests
  {
    evidence in s.minted && s.minted[evidence] == AssetRow(s.ingests[r].caseId, h) && (reused <==> evidence != r)
  }

  /** The request's file is whole and was measured right. */
  ghost predicate Whole(cfg: Config, s: State, r: Id, m: Measured) {
    r in s.files && Faithful(cfg, m, s.files[r])
  }

  /** While put_stream runs, and after its cleanup failed. */
  ghost predicate Uploading(s: State, r: Id, c: Id) {
    c in s.db.cases && r in s.files && r in s.staged && r !in s.minted
  }

  ghost predicate PutOk(cfg: Config, s: State, r: Id, put: Put) {
    match put
    case Stored(m, created) => Whole(cfg, s, r, m) && Promoted(s, r, m.sha256, created)
    case Rejected(why) => why.OBJECT_MISMATCH? ==> !Calm(s)
  }

  /** After put_stream, before the association is committed. */
  ghost predicate Recording(cfg: Config, s: State, r: Id, m: Measured, created: bool)
    requires r in s.ingests
  {
    && s.ingests[r].caseId in s.db.cases && r !in s.staged && r !in s.minted
    && Whole(cfg, s, r, m) && Promoted(s, r, m.sha256, created)
  }

  /** Once the request has an association to answer with. */
  ghost predicate Answering(cfg: Config, s: State, r: Id, m: Measured, created: bool, evidence: Id, reused: bool)
    requires r in s.ingests
  {
    && s.ingests[r].caseId in s.db.cases && r !in s.staged && (r in s.minted <==> evidence == r)
    && Whole(cfg, s, r, m) && Promoted(s, r, m.sha256, created) && EvidenceOk(s, r, m.sha256, evidence, reused)
  }

  ghost predicate IngestOk(cfg: Config, s: State, r: Id)
    requires r in s.ingests
  {
    var c := s.ingests[r].caseId;
    match s.ingests[r].pc
    case Staging(hashed) => Uploading(s, r, c) && s.files[r] == hashed && |hashed| <= cfg.maxUpload
    case Sealed(m) => Uploading(s, r, c) && Whole(cfg, s, r, m)
    case ExistingFound(m) =>
      Uploading(s, r, c) && Whole(cfg, s, r, m) && (!s.tampered ==> m.sha256 in s.objects && s.objects[m.sha256] != r)
    case Unlinking(put) => Uploading(s, r, c) && PutOk(cfg, s, r, put)
    case Littered(put) => Uploading(s, r, c) && PutOk(cfg, s, r, put)
    case Refused(why) => r !in s.staged && r !in s.minted && (why.OBJECT_MISMATCH? ==> !Calm(s))
    case Reading(m, created) => Recording(cfg, s, r, m, created)
    case Committing(m, created, seen) =>
      Recording(cfg, s, r, m, created) && (Calm(s) && !seen.status.CREATED? ==> !s.db.cases[c].CREATED?)
    case Conflicted(m, created) => Recording(cfg, s, r, m, created)
    case Unrecorded(m, created, mismatch) => Recording(cfg, s, r, m, created) && !mismatch
    case Checking(m, created, evidence, reused) => Answering(cfg, s, r, m, created, evidence, reused)
    case Undoing(m, created, evidence, reused) => Answering(cfg, s, r, m, created, evidence, reused) && !Calm(s)
    case Deleting(m, created, evidence, reused, loadedCase) =>
      && Answering(cfg, s, r, m, created, evidence, reused) && !Calm(s)
      && (loadedCase == Some(c) || evidence !in s.db.assets)
    case Accepted(m, created, evidence, reused) => Answering(cfg, s, r, m, created, evidence, reused)
    case Inconsistent(m, created, evidence, reused) => Answering(cfg, s, r, m, created, evidence, reused) && !Calm(s)
  }

  /** The same facts by what the counter carries rather than by where it stands. */
  lemma IngestFacts(cfg: Config, s: State, r: Id)
    requires r in s.ingests && IngestOk(cfg, s, r)
    ensures var pc := s.ingests[r].pc;
      && (r in s.staged <==> HoldsStaging(pc))
      && (r in s.minted <==> HoldsEvidence(pc) && pc.evidence == r)
      && (MeasuredOf(pc).Some? ==> Whole(cfg, s, r, MeasuredOf(pc).value))
      && (CreatedOf(pc).Some? ==> Promoted(s, r, MeasuredOf(pc).value.sha256, CreatedOf(pc).value))
      && (HoldsEvidence(pc) ==> EvidenceOk(s, r, pc.m.sha256, pc.evidence, pc.reused))
      && (NeedsTrouble(pc) ==> !Calm(s))
      && (pc.Unrecorded? ==> !pc.mismatch)
  {
  }

  ghost predicate IngestsOk(cfg: Config, s: State) {
    forall r {:trigger IngestOk(cfg, s, r)} :: r in s.ingests ==> IngestOk(cfg, s, r)
  }

  /** An object is the whole file of a finished upload whose content hashes to the name. */
  ghost predicate ObjectOk(s: State, h: Sha256)
    requires h in s.objects
  {
    var q := s.objects[h];
    && q in s.ingests && q in s.files
    && Sha256(s.files[q]) == h
    && CreatedOf(s.ingests[q].pc) == Some(true)
    && MeasuredOf(s.ingests[q].pc).value.sha256 == h
  }

  ghost predicate ObjectsOk(s: State) {
    forall h {:trigger ObjectOk(s, h)} :: h in s.objects ==> ObjectOk(s, h)
  }

  /** Every association was committed by the request it is named after. */
  ghost predicate AssetOk(s: State, e: Id) {
    e in s.db.assets ==> e in s.minted && s.minted[e] == s.db.assets[e]
  }

  /** While all is calm no committed association is lost. */
  ghost predicate MintedOk(s: State, e: Id) {
    e in s.minted ==> e in s.ingests && (Calm(s) ==> e in s.db.assets)
  }

  ghost predicate BlobOk(cfg: Config, s: State, h: Sha256) {
    h in s.db.blobs ==> Faithful(cfg, s.db.blobs[h], h.of)
  }

  ghost predicate LedgerOk(cfg: Config, s: State) {
    && (forall e {:trigger AssetOk(s, e)} :: AssetOk(s, e))
    && (forall e {:trigger MintedOk(s, e)} :: MintedOk(s, e))
    && (forall h {:trigger BlobOk(cfg, s, h)} :: BlobOk(cfg, s, h))
  }

  ghost predicate Live(s: State, r: Id)
    requires r in s.starts
  {
    r in s.db.runs && s.db.runs[r] == RunRow(s.starts[r].caseId, s.starts[r].evidence, ANALYSIS_PROFILE, RUNNING, None)
  }

  ghost predicate Grounded(s: State, r: Id, h: Sha256)
    requires r in s.starts
  {
    s.starts[r].evidence in s.minted && s.minted[s.starts[r].evidence] == AssetRow(s.starts[r].caseId, h)
  }

  ghost predicate StartOk(s: State, r: Id)
    requires r in s.starts
  {
    match s.starts[r].pc
    case Creating(h) => r !in s.db.runs && Grounded(s, r, h)
    case Querying => r !in s.db.runs
    case Verifying(h) => Live(s, r) && Grounded(s, r, h)
    case Analyzing => Live(s, r)
    case Finishing(plan) => Live(s, r) && (plan.status.COMPLETED? || plan.status.PARTIAL?)
    case RecordingFailure => Live(s, r)
    case RecordingRefusal => Live(s, r) && !Calm(s)
    case Ended(end) =>
      match end
      case Returned(status) =>
        && r in s.db.runs && s.db.runs[r].evidence == s.starts[r].evidence && s.db.runs[r].profile == ANALYSIS_PROFILE
        && s.db.runs[r].status == status && !status.RUNNING?
      case Stranded => Live(s, r)
      case OutOfTime => Live(s, r)
      case _ => r !in s.db.runs
  }

  /** Reports, statuses and the integrity verdict of a run agree. */
  ghost predicate RunFacts(s: State, r: Id)
    requires r in s.db.runs
  {
    var row := s.db.runs[r];
    && r in s.starts
    && (r in s.db.reports <==> row.status.COMPLETED? || row.status.PARTIAL?)
    && (row.terminal.Some? ==> (row.terminal.value.verified <==> !row.status.REFUSED?))
    && (row.status.REFUSED? ==> !Calm(s))
  }

  ghost predicate RunsOk(s: State) {
    && (forall r {:trigger StartOk(s, r)} :: r in s.starts ==> StartOk(s, r))
    && (forall r {:trigger RunFacts(s, r)} :: r in s.db.runs ==> RunFacts(s, r))
  }

  /** Uploads, objects and the ledger of associations. */
  ghost predicate IntakeOk(cfg: Config, s: State) {
    ObjectsOk(s) && LedgerOk(cfg, s) && IngestsOk(cfg, s)
  }

  ghost predicate TablesOk(s: State) {
    Consistent(s.db) && RunsOk(s)
  }

  ghost predicate Inv(cfg: Config, s: State) {
    IntakeOk(cfg, s) && TablesOk(s)
  }

  // ---------------------------------------------------------------- what a step leaves of the other requests

  /** Trouble is never forgotten. */
  predicate Remembers(s: State, t: State) {
    (s.tampered ==> t.tampered) && (s.misread ==> t.misread)
  }

  /** What request `q` keeps of its own through a step of another one. */
  ghost predicate Untouched(s: State, t: State, q: Id) {
    q in s.ingests ==>
      && q in t.ingests && t.ingests[q] == s.ingests[q]
      && (q in s.files ==> q in t.files && t.files[q] == s.files[q])
      && (q in s.staged <==> q in t.staged)
      && (q in t.minted ==> q in s.minted)
  }

  ghost predicate ObjectKept(s: State, t: State, h: Sha256) {
    !t.tampered && h in s.objects ==> h in t.objects && t.objects[h] == s.objects[h]
  }

  ghost predicate MintedKept(s: State, t: State, e: Id) {
    e in s.minted ==> e in t.minted && t.minted[e] == s.minted[e]
  }

  /** A committed association that is gone stays gone. */
  ghost predicate NotRevived(s: State, t: State, e: Id) {
    e in s.minted && e in t.db.assets ==> e in s.db.assets
  }

  ghost predicate CaseKept(s: State, t: State, c: Id) {
    c in s.db.cases ==> c in t.db.cases && (Calm(t) && !s.db.cases[c].CREATED? ==> !t.db.cases[c].CREATED?)
  }

  /** A step of upload `r`, as every other request sees it. */
  ghost predicate Later(s: State, t: State, r: Id) {
    && Remembers(s, t)
    && (forall q {:trigger Untouched(s, t, q)} :: q != r ==> Untouched(s, t, q))
    && (forall h {:trigger ObjectKept(s, t, h)} :: ObjectKept(s, t, h))
    && (forall e {:trigger MintedKept(s, t, e)} :: MintedKept(s, t, e))
    && (forall e {:trigger NotRevived(s, t, e)} :: NotRevived(s, t, e))
    && (forall c {:trigger CaseKept(s, t, c)} :: CaseKept(s, t, c))
  }

  ghost predicate IngestKept(s: State, t: State, r: Id) {
    r in s.ingests ==> r in t.ingests && t.ingests[r].caseId == s.ingests[r].caseId
  }

  /** What a step never takes back. */
  ghost predicate Onward(s: State, t: State) {
    && Remembers(s, t)
    && (forall e {:trigger MintedKept(s, t, e)} :: MintedKept(s, t, e))
    && (forall h {:trigger ObjectKept(s, t, h)} :: ObjectKept(s, t, h))
    && (forall r {:trigger IngestKept(s, t, r)} :: IngestKept(s, t, r))
  }

  /** A request that did not move is as well off as before. */
  lemma IngestStaysOk(cfg: Config, s: State, t: State, r: Id, q: Id)
    requires q in s.ingests && q != r && IngestOk(cfg, s, q) && Later(s, t, r)
    ensures q in t.ingests && IngestOk(cfg, t, q)
  {
    var Ingest(c, pc) := s.ingests[q];
    assert Untouched(s, t, q) && MintedKept(s, t, q) && CaseKept(s, t, c);
    if MeasuredOf(pc).Some? { assert ObjectKept(s, t, MeasuredOf(pc).value.sha256); }
    if HoldsEvidence(pc) { assert MintedKept(s, t, pc.evidence) && NotRevived(s, t, pc.evidence); }
  }

  lemma IngestsStayOk(cfg: Config, s: State, t: State, r: Id)
    requires IngestsOk(cfg, s) && Later(s, t, r)
    requires r in t.ingests && IngestOk(cfg, t, r)
    requires forall q :: q in t.ingests ==> q in s.ingests || q == r
    ensures IngestsOk(cfg, t)
  {
    forall q | q in t.ingests ensures IngestOk(cfg, t, q) {
      if q != r {
        assert IngestOk(cfg, s, q);
        IngestStaysOk(cfg, s, t, r, q);
      }
    }
  }

  /** Steps that leave runs, reports and the ledger's rows alone keep what starts rely on. */
  lemma RunsStayOk(s: State, t: State)
    requires RunsOk(s)
    requires t.db.runs == s.db.runs && t.db.reports == s.db.reports && t.starts == s.starts && Remembers(s, t)
    requires forall e {:trigger MintedKept(s, t, e)} :: MintedKept(s, t, e)
    ensures RunsOk(t)
  {
    forall r | r in t.starts ensures StartOk(t, r) {
      assert StartOk(s, r) && MintedKept(s, t, s.starts[r].evidence);
    }
    forall r | r in t.db.runs ensures RunFacts(t, r) { assert RunFacts(s, r); }
  }

  // ---------------------------------------------------------------- upload steps

  /** No finished upload writes to its file again or changes what it measured. */
  ghost predicate Settled(s: State, t: State, r: Id) {
    && r in t.ingests
    && (r in s.ingests && CreatedOf(s.ingests[r].pc).Some? ==>
          && CreatedOf(t.ingests[r].pc) == CreatedOf(s.ingests[r].pc)
          && MeasuredOf(t.ingests[r].pc) == MeasuredOf(s.ingests[r].pc)
          && r in s.files && r in t.files && t.files[r] == s.files[r])
  }

  lemma ObjectsStayOk(s: State, t: State, r: Id)
    requires ObjectsOk(s) && Settled(s, t, r)
    requires forall q {:trigger Untouched(s, t, q)} :: q != r ==> Untouched(s, t, q)
    requires forall h :: h in t.objects ==> h in s.objects && t.objects[h] == s.objects[h]
    ensures ObjectsOk(t)
  {
    forall h | h in t.objects ensures ObjectOk(t, h) {
      assert ObjectOk(s, h) && (s.objects[h] != r ==> Untouched(s, t, s.objects[h]));
    }
  }

  /** A step that leaves the tables alone. */
  ghost predicate Quiet(s: State, t: State) {
    && t.db == s.db && t.minted == s.minted && t.starts == s.starts && t.tampered == s.tampered
    && (s.misread ==> t.misread)
  }

  lemma QuietKeepsTables(s: State, t: State)
    requires TablesOk(s) && Quiet(s, t)
    ensures TablesOk(t)
  {
    RunsStayOk(s, t);
  }

  /** A step of upload `r` that moves its own counter, file, staging name or object only. */
  ghost predicate OwnMove(s: State, t: State, r: Id) {
    && Quiet(s, t) && r in t.ingests && t.ingests == s.ingests[r := t.ingests[r]]
    && (r in s.ingests ==> t.ingests[r].caseId == s.ingests[r].caseId)
    && (t.files == s.files || (r in t.files && t.files == s.files[r := t.files[r]]))
    && (t.staged == s.staged || t.staged == s.staged + {r} || t.staged == s.staged - {r})
    && (forall h {:trigger ObjectKept(s, t, h)} :: ObjectKept(s, t, h))
  }

  lemma LedgerStays(cfg: Config, s: State, t: State)
    requires LedgerOk(cfg, s) && t.minted == s.minted && Remembers(s, t)
    requires t.db.assets == s.db.assets && t.db.blobs == s.db.blobs && s.ingests.Keys <= t.ingests.Keys
    ensures LedgerOk(cfg, t)
  {
    forall e ensures AssetOk(t, e) { assert AssetOk(s, e); }
    forall e ensures MintedOk(t, e) { assert MintedOk(s, e); }
    forall h ensures BlobOk(cfg, t, h) { assert BlobOk(cfg, s, h); }
  }

  lemma OwnMoveIsLater(s: State, t: State, r: Id)
    requires OwnMove(s, t, r)
    ensures Later(s, t, r) && Onward(s, t)
  {
  }

  lemma OwnMoveKeeps(cfg: Config, s: State, t: State, r: Id)
    requires IntakeOk(cfg, s) && OwnMove(s, t, r) && ObjectsOk(t) && IngestOk(cfg, t, r)
    ensures IntakeOk(cfg, t) && Onward(s, t)
  {
    OwnMoveIsLater(s, t, r);
    LedgerStays(cfg, s, t);
    IngestsStayOk(cfg, s, t, r);
  }

  /** The same for steps that link nothing. */
  lemma UnlinkedMoveKeeps(cfg: Config, s: State, t: State, r: Id)
    requires IntakeOk(cfg, s) && OwnMove(s, t, r) && t.objects == s.objects && Settled(s, t, r) && IngestOk(cfg, t, r)
    ensures IntakeOk(cfg, t) && Onward(s, t)
  {
    OwnMoveIsLater(s, t, r);
    ObjectsStayOk(s, t, r);
    OwnMoveKeeps(cfg, s, t, r);
  }

  lemma NotYetMinted(cfg: Config, s: State, r: Id)
    requires LedgerOk(cfg, s) && r !in s.ingests
    ensures r !in s.minted
  {
    assert MintedOk(s, r);
  }

  lemma BeginIngestKeeps(cfg: Config, s: State, t: State, r: Id, c: Id)
    requires IntakeOk(cfg, s) && BeginIngestStep(s, t, r, c)
    ensures IntakeOk(cfg, t) && Quiet(s, t) && Onward(s, t)
  {
    NotYetMinted(cfg, s, r);
    UnlinkedMoveKeeps(cfg, s, t, r);
  }

  lemma ChunkKeeps(cfg: Config, s: State, t: State, r: Id, data: Bytes)
    requires IntakeOk(cfg, s) && ChunkStep(cfg, s, t, r, data)
    ensures IntakeOk(cfg, t) && Quiet(s, t) && Onward(s, t)
  {
    assert IngestOk(cfg, s, r);
    UnlinkedMoveKeeps(cfg, s, t, r);
  }

  lemma StagingFaultKeeps(cfg: Config, s: State, t: State, r: Id, data: Bytes, why: Rejection)
    requires IntakeOk(cfg, s) && StagingFaultStep(s, t, r, data, why) && !why.OBJECT_MISMATCH?
    ensures IntakeOk(cfg, t) && Quiet(s, t) && Onward(s, t)
  {
    assert IngestOk(cfg, s, r);
    UnlinkedMoveKeeps(cfg, s, t, r);
  }

  lemma EndOfStreamKeeps(cfg: Config, s: State, t: State, r: Id)
    requires IntakeOk(cfg, s) && EndOfStreamStep(cfg, s, t, r)
    ensures IntakeOk(cfg, t) && Quiet(s, t) && Onward(s, t)
  {
    assert IngestOk(cfg, s, r);
    UnlinkedMoveKeeps(cfg, s, t, r);
  }

  /** The hard link: either the name is new and the whole file appears under it, or it is taken. */
  lemma LinkKeepsObjects(s: State, t: State, r: Id)
    requires ObjectsOk(s) && LinkStep(s, t, r)
    requires r in s.files && Sha256(s.files[r]) == s.ingests[r].pc.m.sha256
    ensures ObjectsOk(t)
  {
    var h := s.ingests[r].pc.m.sha256;
    forall k | k in t.objects ensures ObjectOk(t, k) {
      if k != h || h in s.objects { assert ObjectOk(s, k); }
    }
  }

  /** The name is never taken by the upload's own file. */
  lemma LinkOwn(cfg: Config, s: State, t: State, r: Id)
    requires r in s.ingests && IngestOk(cfg, s, r) && ObjectsOk(s) && LinkStep(s, t, r)
    ensures IngestOk(cfg, t, r)
  {
    var h := s.ingests[r].pc.m.sha256;
    if h in s.objects { assert ObjectOk(s, h); }
  }

  lemma LinkKeeps(cfg: Config, s: State, t: State, r: Id)
    requires IntakeOk(cfg, s) && LinkStep(s, t, r)
    ensures IntakeOk(cfg, t) && Quiet(s, t) && Onward(s, t)
  {
    assert IngestOk(cfg, s, r);
    LinkOwn(cfg, s, t, r);
    LinkKeepsObjects(s, t, r);
    OwnMoveKeeps(cfg, s, t, r);
  }

  lemma LinkFaultKeeps(cfg: Config, s: State, t: State, r: Id)
    requires IntakeOk(cfg, s) && LinkFaultStep(s, t, r)
    ensures IntakeOk(cfg, t) && Quiet(s, t) && Onward(s, t)
  {
    assert IngestOk(cfg, s, r);
    UnlinkedMoveKeeps(cfg, s, t, r);
  }

  /** Without outside deletion the existing object is there and has the upload's content. */
  lemma VerifyExistingKeeps(cfg: Config, s: State, t: State, r: Id)
    requires IntakeOk(cfg, s) && VerifyExistingStep(s, t, r)
    ensures IntakeOk(cfg, t) && Quiet(s, t) && Onward(s, t)
  {
    assert IngestOk(cfg, s, r);
    var m := s.ingests[r].pc.m;
    if m.sha256 in s.objects { assert ObjectOk(s, m.sha256); }
    UnlinkedMoveKeeps(cfg, s, t, r);
  }

  lemma ExistingUnreadableKeeps(cfg: Config, s: State, t: State, r: Id)
    requires IntakeOk(cfg, s) && ExistingUnreadableStep(s, t, r)
    ensures IntakeOk(cfg, t) && Quiet(s, t) && Onward(s, t)
  {
    assert IngestOk(cfg, s, r);
    UnlinkedMoveKeeps(cfg, s, t, r);
  }

  lemma UnlinkKeeps(cfg: Config, s: State, t: State, r: Id)
    requires IntakeOk(cfg, s) && UnlinkStep(s, t, r)
    ensures IntakeOk(cfg, t) && Quiet(s, t) && Onward(s, t)
  {
    assert IngestOk(cfg, s, r);
    UnlinkedMoveKeeps(cfg, s, t, r);
  }

  lemma UnlinkFaultKeeps(cfg: Config, s: State, t: State, r: Id)
    requires IntakeOk(cfg, s) && UnlinkFaultStep(s, t, r)
    ensures IntakeOk(cfg, t) && Quiet(s, t) && Onward(s, t)
  {
    assert IngestOk(cfg, s, r);
    UnlinkedMoveKeeps(cfg, s, t, r);
  }

  // ---------------------------------------------------------------- record steps

  lemma FoundIsLedgered(cfg: Config, s: State, c: Id, h: Sha256)
    requires LedgerOk(cfg, s) && FindCaseBlob(s.db, c, h).Some?
    ensures var e := FindCaseBlob(s.db, c, h).value; e in s.minted && s.minted[e] == AssetRow(c, h)
  {
    assert AssetOk(s, FindCaseBlob(s.db, c, h).value);
  }

  /** A stored blob row always equals what this upload measured: its mismatch branch is dead. */
  lemma BlobRowsAgree(cfg: Config, s: State, m: Measured, c: Bytes)
    requires LedgerOk(cfg, s) && Faithful(cfg, m, c) && m.sha256 in s.db.blobs
    ensures s.db.blobs[m.sha256] == m
  {
    assert BlobOk(cfg, s, m.sha256) && m.sha256.of == c;
  }

  lemma ReadRecordKeeps(cfg: Config, s: State, t: State, r: Id)
    requires IntakeOk(cfg, s) && ReadRecordStep(s, t, r)
    ensures IntakeOk(cfg, t) && Quiet(s, t) && Onward(s, t)
  {
    assert IngestOk(cfg, s, r);
    var m := s.ingests[r].pc.m;
    if m.sha256 in s.db.blobs { BlobRowsAgree(cfg, s, m, s.files[r]); }
    if FindCaseBlob(s.db, s.ingests[r].caseId, m.sha256).Some? {
      FoundIsLedgered(cfg, s, s.ingests[r].caseId, m.sha256);
    }
    UnlinkedMoveKeeps(cfg, s, t, r);
  }

  lemma ReadAfterConflictKeeps(cfg: Config, s: State, t: State, r: Id)
    requires IntakeOk(cfg, s) && ReadAfterConflictStep(s, t, r)
    ensures IntakeOk(cfg, t) && Quiet(s, t) && Onward(s, t)
  {
    assert IngestOk(cfg, s, r);
    var m := s.ingests[r].pc.m;
    if FindCaseBlob(s.db, s.ingests[r].caseId, m.sha256).Some? {
      FoundIsLedgered(cfg, s, s.ingests[r].caseId, m.sha256);
    }
    UnlinkedMoveKeeps(cfg, s, t, r);
  }

  /** Without outside deletion the final check, if it can look, always finds the object. */
  lemma CheckObjectKeeps(cfg: Config, s: State, t: State, r: Id)
    requires IntakeOk(cfg, s) && CheckObjectStep(s, t, r)
    ensures IntakeOk(cfg, t) && Quiet(s, t) && Onward(s, t)
  {
    assert IngestOk(cfg, s, r);
    var m := s.ingests[r].pc.m;
    if m.sha256 in s.objects { assert ObjectOk(s, m.sha256); }
    UnlinkedMoveKeeps(cfg, s, t, r);
  }

  lemma CheckFaultKeeps(cfg: Config, s: State, t: State, r: Id)
    requires IntakeOk(cfg, s) && CheckFaultStep(s, t, r)
    ensures IntakeOk(cfg, t) && Quiet(s, t) && Onward(s, t)
  {
    assert IngestOk(cfg, s, r);
    UnlinkedMoveKeeps(cfg, s, t, r);
  }

  lemma ReadForUndoKeeps(cfg: Config, s: State, t: State, r: Id)
    requires IntakeOk(cfg, s) && ReadForUndoStep(s, t, r)
    ensures IntakeOk(cfg, t) && Quiet(s, t) && Onward(s, t)
  {
    assert IngestOk(cfg, s, r) && AssetOk(s, s.ingests[r].pc.evidence);
    UnlinkedMoveKeeps(cfg, s, t, r);
  }

  lemma DatabaseFaultKeeps(cfg: Config, s: State, t: State, r: Id)
    requires IntakeOk(cfg, s) && DatabaseFaultStep(s, t, r)
    ensures IntakeOk(cfg, t) && Quiet(s, t) && Onward(s, t)
  {
    assert IngestOk(cfg, s, r);
    UnlinkedMoveKeeps(cfg, s, t, r);
  }

  /** A step of upload `r` that changes evidence rows and nothing else but its own counter. */
  lemma LedgerStep(cfg: Config, s: State, t: State, r: Id)
    requires IntakeOk(cfg, s) && LedgerOk(cfg, t) && Settled(s, t, r) && IngestOk(cfg, t, r) && Later(s, t, r)
    requires t.objects == s.objects && t.ingests == s.ingests[r := t.ingests[r]]
    requires r in s.ingests && t.ingests[r].caseId == s.ingests[r].caseId
    ensures IntakeOk(cfg, t) && Onward(s, t)
  {
    ObjectsStayOk(s, t, r);
    IngestsStayOk(cfg, s, t, r);
  }

  /** The new association enters the tables and the ledger together. */
  lemma CommitRecordLedger(cfg: Config, s: State, t: State, r: Id)
    requires LedgerOk(cfg, s) && CommitRecordStep(cfg, s, t, r)
    requires r in s.files && Faithful(cfg, s.ingests[r].pc.m, s.files[r])
    ensures LedgerOk(cfg, t)
  {
    assert s.ingests[r].pc.m.sha256.of == s.files[r];
    forall e ensures AssetOk(t, e) { assert AssetOk(s, e); }
    forall e ensures MintedOk(t, e) { assert MintedOk(s, e); }
    forall h ensures BlobOk(cfg, t, h) { assert BlobOk(cfg, s, h); }
  }

  lemma CommitRecordOwn(cfg: Config, s: State, t: State, r: Id)
    requires r in s.ingests && IngestOk(cfg, s, r) && CommitRecordStep(cfg, s, t, r)
    ensures IngestOk(cfg, t, r) && Settled(s, t, r)
  {
  }

  lemma CommitRecordLater(cfg: Config, s: State, t: State, r: Id)
    requires CommitRecordStep(cfg, s, t, r) && r !in s.minted
    ensures Later(s, t, r)
  {
  }

  lemma CommitRecordKeeps(cfg: Config, s: State, t: State, r: Id)
    requires IntakeOk(cfg, s) && CommitRecordStep(cfg, s, t, r)
    ensures IntakeOk(cfg, t) && Onward(s, t)
  {
    assert IngestOk(cfg, s, r);
    CommitRecordLedger(cfg, s, t, r);
    CommitRecordOwn(cfg, s, t, r);
    CommitRecordLater(cfg, s, t, r);
    LedgerStep(cfg, s, t, r);
  }

  lemma CommitUndoOwn(cfg: Config, s: State, t: State, r: Id)
    requires r in s.ingests && IngestOk(cfg, s, r) && LedgerOk(cfg, s) && CommitUndoStep(s, t, r)
    ensures IngestOk(cfg, t, r) && LedgerOk(cfg, t) && Settled(s, t, r) && Later(s, t, r)
  {
    forall e ensures AssetOk(t, e) { assert AssetOk(s, e); }
    forall e ensures MintedOk(t, e) { assert MintedOk(s, e); }
    forall h ensures BlobOk(cfg, t, h) { assert BlobOk(cfg, s, h); }
  }

  lemma CommitUndoKeeps(cfg: Config, s: State, t: State, r: Id)
    requires IntakeOk(cfg, s) && CommitUndoStep(s, t, r)
    ensures IntakeOk(cfg, t) && Onward(s, t)
  {
    assert IngestOk(cfg, s, r);
    CommitUndoOwn(cfg, s, t, r);
    LedgerStep(cfg, s, t, r);
  }

  lemma CommitRecordKeepsTables(cfg: Config, s: State, t: State, r: Id)
    requires TablesOk(s) && CommitRecordStep(cfg, s, t, r) && r !in s.minted
    ensures TablesOk(t)
  {
    var Ingest(c, pc) := s.ingests[r];
    if Admitted(s, r) { RecordKeepsConsistent(cfg.flush, s.db, r, c, pc.m, pc.seen); }
    RunsStayOk(s, t);
  }

  /** The asset row loaded before the DELETE still describes the row, if it is still there. */
  lemma UndoArgs(cfg: Config, s: State, r: Id)
    requires LedgerOk(cfg, s) && r in s.ingests && s.ingests[r].pc.Deleting? && IngestOk(cfg, s, r)
    ensures var pc := s.ingests[r].pc; CompensationArgs(s.db, pc.evidence, pc.m.sha256, pc.loadedCase)
  {
    assert AssetOk(s, s.ingests[r].pc.evidence);
  }

  lemma CommitUndoKeepsTables(cfg: Config, s: State, t: State, r: Id)
    requires TablesOk(s) && LedgerOk(cfg, s) && r in s.ingests && IngestOk(cfg, s, r) && CommitUndoStep(s, t, r)
    ensures TablesOk(t)
  {
    var pc := s.ingests[r].pc;
    UndoArgs(cfg, s, r);
    if Compensate(s.db, pc.evidence, pc.m.sha256, pc.loadedCase).Some? {
      CompensateKeepsConsistent(s.db, pc.evidence, pc.m.sha256, pc.loadedCase);
    }
    RunsStayOk(s, t);
  }

  // ---------------------------------------------------------------- start steps

  /** A step of a start: rows of evidence stay, and no case goes back to CREATED. */
  ghost predicate EvidenceKept(s: State, t: State) {
    && t.files == s.files && t.staged == s.staged && t.objects == s.objects && t.minted == s.minted
    && t.ingests == s.ingests && t.tampered == s.tampered && (s.misread ==> t.misread)
    && t.db.assets == s.db.assets && t.db.blobs == s.db.blobs
    && (forall c {:trigger CaseKept(s, t, c)} :: CaseKept(s, t, c))
  }

  lemma EvidenceKeptKeepsIngest(cfg: Config, s: State, t: State, q: Id)
    requires EvidenceKept(s, t) && q in s.ingests && IngestOk(cfg, s, q)
    ensures IngestOk(cfg, t, q)
  {
    assert CaseKept(s, t, s.ingests[q].caseId);
  }

  lemma EvidenceKeptKeepsIntake(cfg: Config, s: State, t: State)
    requires IntakeOk(cfg, s) && EvidenceKept(s, t)
    ensures IntakeOk(cfg, t) && Onward(s, t)
  {
    LedgerStays(cfg, s, t);
    forall q | q in t.ingests ensures IngestOk(cfg, t, q) {
      assert IngestOk(cfg, s, q);
      EvidenceKeptKeepsIngest(cfg, s, t, q);
    }
    forall h | h in t.objects ensures ObjectOk(t, h) { assert ObjectOk(s, h); }
  }

  ghost predicate RunKept(s: State, t: State, q: Id) {
    && (q in s.db.runs <==> q in t.db.runs) && (q in s.db.runs ==> t.db.runs[q] == s.db.runs[q])
    && (q in s.db.reports <==> q in t.db.reports)
  }

  /** Only the run named by the request changes. */
  lemma StartStep(s: State, t: State, r: Id)
    requires RunsOk(s) && t.minted == s.minted && Remembers(s, t)
    requires r in t.starts && t.starts == s.starts[r := t.starts[r]]
    requires forall q {:trigger RunKept(s, t, q)} :: q != r ==> RunKept(s, t, q)
    requires StartOk(t, r) && (r in t.db.runs ==> RunFacts(t, r))
    ensures RunsOk(t)
  {
    forall q | q in t.starts ensures StartOk(t, q) { if q != r { assert StartOk(s, q) && RunKept(s, t, q); } }
    forall q | q in t.db.runs ensures RunFacts(t, q) { if q != r { assert RunKept(s, t, q) && RunFacts(s, q); } }
  }

  /** A start's step that writes nothing. */
  ghost predicate StartMove(s: State, t: State, r: Id) {
    && r in t.starts && t.starts == s.starts[r := t.starts[r]]
    && t.db == s.db && EvidenceKept(s, t)
  }

  lemma StartMoveKeeps(cfg: Config, s: State, t: State, r: Id)
    requires Inv(cfg, s) && StartMove(s, t, r) && StartOk(t, r) && (r in s.db.runs ==> r in s.starts)
    ensures Inv(cfg, t) && Onward(s, t)
  {
    EvidenceKeptKeepsIntake(cfg, s, t);
    if r in s.db.runs { assert RunFacts(s, r); }
    StartStep(s, t, r);
  }

  lemma RunHasStart(s: State, r: Id)
    requires RunsOk(s)
    ensures r in s.db.runs ==> r in s.starts
  {
    if r in s.db.runs { assert RunFacts(s, r); }
  }

  lemma OpenKeeps(cfg: Config, s: State, t: State, r: Id, c: Id, e: Id)
    requires Inv(cfg, s) && OpenStep(s, t, r, c, e)
    ensures Inv(cfg, t) && Onward(s, t)
  {
    RunHasStart(s, r);
    assert AssetOk(s, e);
    StartMoveKeeps(cfg, s, t, r);
  }

  lemma InsertedRunOk(cfg: Config, s: State, t: State, r: Id)
    requires RunsOk(s) && ChildrenOk(s.db) && InsertRunStep(s, t, r)
    ensures RunsOk(t)
  {
    assert StartOk(s, r);
    StartStep(s, t, r);
  }

  lemma InsertRunKeeps(cfg: Config, s: State, t: State, r: Id)
    requires Inv(cfg, s) && InsertRunStep(s, t, r)
    ensures Inv(cfg, t) && Onward(s, t)
  {
    assert StartOk(s, r);
    var Start(c, e, pc) := s.starts[r];
    if RunAllowed(s.db, r, c, e, ANALYSIS_PROFILE) {
      assert AssetOk(s, e);
      CreateRunKeepsConsistent(s.db, r, c, e, ANALYSIS_PROFILE);
    }
    EvidenceKeptKeepsIntake(cfg, s, t);
    InsertedRunOk(cfg, s, t, r);
  }

  lemma QueryActiveKeeps(cfg: Config, s: State, t: State, r: Id)
    requires Inv(cfg, s) && QueryActiveStep(s, t, r)
    ensures Inv(cfg, t) && Onward(s, t)
  {
    assert StartOk(s, r);
    RunHasStart(s, r);
    StartMoveKeeps(cfg, s, t, r);
  }

  /** Every committed association has its object, unless objects were deleted from outside. */
  lemma MintedHasObject(cfg: Config, s: State, e: Id)
    requires IntakeOk(cfg, s) && !s.tampered && e in s.minted
    ensures s.minted[e].sha256 in s.objects && ObjectOk(s, s.minted[e].sha256)
  {
    assert MintedOk(s, e) && IngestOk(cfg, s, e);
    IngestFacts(cfg, s, e);
    assert ObjectOk(s, s.minted[e].sha256);
  }

  /** The evidence of a live run verifies: its row and its object describe the same bytes. */
  lemma LiveEvidenceVerifies(cfg: Config, s: State, r: Id)
    requires Inv(cfg, s) && !s.tampered && r in s.starts && s.starts[r].pc.Verifying?
    ensures var h := s.starts[r].pc.sha256; h in s.db.blobs && Matches(ObjectBytes(s, h), s.db.blobs[h])
  {
    assert StartOk(s, r);
    var e := s.starts[r].evidence;
    var h := s.starts[r].pc.sha256;
    assert RunRowOk(s.db.runs[r], s.db.assets) && AssetOk(s, e);
    assert s.db.assets[e].sha256 == h && h in Referenced(s.db.assets);
    MintedHasObject(cfg, s, e);
    assert BlobOk(cfg, s, h);
  }

  lemma VerifyEvidenceKeeps(cfg: Config, s: State, t: State, r: Id)
    requires Inv(cfg, s) && VerifyEvidenceStep(s, t, r)
    ensures Inv(cfg, t) && Onward(s, t)
  {
    assert StartOk(s, r);
    RunHasStart(s, r);
    if !s.tampered { LiveEvidenceVerifies(cfg, s, r); }
    StartMoveKeeps(cfg, s, t, r);
  }

  lemma EvidenceUnreadableKeeps(cfg: Config, s: State, t: State, r: Id)
    requires Inv(cfg, s) && EvidenceUnreadableStep(s, t, r)
    ensures Inv(cfg, t) && Onward(s, t)
  {
    assert StartOk(s, r);
    RunHasStart(s, r);
    StartMoveKeeps(cfg, s, t, r);
  }

  lemma AnalyzeKeeps(cfg: Config, s: State, t: State, r: Id, plan: Option<Plan>)
    requires Inv(cfg, s) && AnalyzeStep(s, t, r, plan)
    ensures Inv(cfg, t) && Onward(s, t)
  {
    assert StartOk(s, r);
    RunHasStart(s, r);
    StartMoveKeeps(cfg, s, t, r);
  }

  lemma StartDatabaseFaultKeeps(cfg: Config, s: State, t: State, r: Id)
    requires Inv(cfg, s) && StartDatabaseFaultStep(s, t, r)
    ensures Inv(cfg, t) && Onward(s, t)
  {
    assert StartOk(s, r);
    RunHasStart(s, r);
    StartMoveKeeps(cfg, s, t, r);
  }

  lemma ClockFaultKeeps(cfg: Config, s: State, t: State, r: Id)
    requires Inv(cfg, s) && ClockFaultStep(s, t, r)
    ensures Inv(cfg, t) && Onward(s, t)
  {
    assert StartOk(s, r);
    RunHasStart(s, r);
    StartMoveKeeps(cfg, s, t, r);
  }

  lemma FinalizedRunOk(s: State, t: State, r: Id)
    requires RunsOk(s) && FinalizeRunStep(s, t, r)
    ensures RunsOk(t)
  {
    assert StartOk(s, r) && RunFacts(s, r);
    StartStep(s, t, r);
  }

  lemma FinalizedTablesOk(s: State, t: State, r: Id)
    requires Consistent(s.db) && FinalizeRunStep(s, t, r) && StartOk(s, r)
    ensures Consistent(t.db)
  {
    var tx := FinalizeArgs(s, r);
    if FinalizeAttempt(s, r).Finalized? {
      FinalizeKeepsConsistent(s.db, r, tx.doc, tx.tests, tx.artifacts, tx.report);
      assert Consistent(t.db);
    }
  }

  lemma FinalizeKeepsEvidence(s: State, t: State, r: Id)
    requires FinalizeRunStep(s, t, r)
    ensures EvidenceKept(s, t)
  {
  }

  lemma FinalizeRunKeeps(cfg: Config, s: State, t: State, r: Id)
    requires Inv(cfg, s) && FinalizeRunStep(s, t, r)
    ensures Inv(cfg, t) && Onward(s, t)
  {
    assert StartOk(s, r);
    FinalizedTablesOk(s, t, r);
    FinalizeKeepsEvidence(s, t, r);
    EvidenceKeptKeepsIntake(cfg, s, t);
    FinalizedRunOk(s, t, r);
  }

  // ---------------------------------------------------------------- the world outside

  lemma OpenCaseKeeps(cfg: Config, s: State, t: State, c: Id)
    requires Inv(cfg, s) && OpenCaseStep(s, t, c)
    ensures Inv(cfg, t) && Onward(s, t)
  {
    EvidenceKeptKeepsIntake(cfg, s, t);
    RunsStayOk(s, t);
    TransactionsKeepConsistent(cfg.flush, s.db, NewCase(c));
  }

  lemma OutsideDeleteKeepsIngest(cfg: Config, s: State, t: State, h: Sha256, q: Id)
    requires OutsideDeleteStep(s, t, h) && q in s.ingests && IngestOk(cfg, s, q)
    ensures IngestOk(cfg, t, q)
  {
  }

  lemma OutsideDeleteKeeps(cfg: Config, s: State, t: State, h: Sha256)
    requires Inv(cfg, s) && OutsideDeleteStep(s, t, h)
    ensures Inv(cfg, t) && Onward(s, t)
  {
    LedgerStays(cfg, s, t);
    forall q | q in t.ingests ensures IngestOk(cfg, t, q) {
      assert IngestOk(cfg, s, q);
      OutsideDeleteKeepsIngest(cfg, s, t, h, q);
    }
    forall k | k in t.objects ensures ObjectOk(t, k) { assert ObjectOk(s, k); }
    RunsStayOk(s, t);
  }

  // ---------------------------------------------------------------- every step, every run

  lemma UploadStepKeeps(cfg: Config, s: State, t: State, r: Id, step: IngestStep)
    requires IntakeOk(cfg, s) && IngestNext(cfg, s, t, r, step) && !step.CommitRecord? && !step.CommitUndo?
    ensures IntakeOk(cfg, t) && Quiet(s, t) && Onward(s, t)
  {
    match step {
      case Begin(c) => BeginIngestKeeps(cfg, s, t, r, c);
      case Chunk(data) => ChunkKeeps(cfg, s, t, r, data);
      case ReadFault => StagingFaultKeeps(cfg, s, t, r, [], UPLOAD_INTERRUPTED);
      case WriteFault(data) => StagingFaultKeeps(cfg, s, t, r, data, STORAGE_UNAVAILABLE);
      case EndOfStream => EndOfStreamKeeps(cfg, s, t, r);
      case Link => LinkKeeps(cfg, s, t, r);
      case LinkFault => LinkFaultKeeps(cfg, s, t, r);
      case VerifyExisting => VerifyExistingKeeps(cfg, s, t, r);
      case ExistingUnreadable => ExistingUnreadableKeeps(cfg, s, t, r);
      case Unlink => UnlinkKeeps(cfg, s, t, r);
      case UnlinkFault => UnlinkFaultKeeps(cfg, s, t, r);
      case ReadRecord => ReadRecordKeeps(cfg, s, t, r);
      case ReadAfterConflict => ReadAfterConflictKeeps(cfg, s, t, r);
      case CheckObject => CheckObjectKeeps(cfg, s, t, r);
      case CheckFault => CheckFaultKeeps(cfg, s, t, r);
      case ReadForUndo => ReadForUndoKeeps(cfg, s, t, r);
      case DatabaseFault => DatabaseFaultKeeps(cfg, s, t, r);
    }
  }

  lemma IngestStepKeeps(cfg: Config, s: State, t: State, r: Id, step: IngestStep)
    requires Inv(cfg, s) && IngestNext(cfg, s, t, r, step)
    ensures Inv(cfg, t) && Onward(s, t)
  {
    if step.CommitRecord? {
      assert IngestOk(cfg, s, r);
      CommitRecordKeeps(cfg, s, t, r);
      CommitRecordKeepsTables(cfg, s, t, r);
    } else if step.CommitUndo? {
      assert IngestOk(cfg, s, r);
      CommitUndoKeeps(cfg, s, t, r);
      CommitUndoKeepsTables(cfg, s, t, r);
    } else {
      UploadStepKeeps(cfg, s, t, r, step);
      QuietKeepsTables(s, t);
    }
  }

  lemma StartStepKeeps(cfg: Config, s: State, t: State, r: Id, step: StartStep)
    requires Inv(cfg, s) && StartNext(s, t, r, step)
    ensures Inv(cfg, t) && Onward(s, t)
  {
    match step {
      case Open(c, e) => OpenKeeps(cfg, s, t, r, c, e);
      case InsertRun => InsertRunKeeps(cfg, s, t, r);
      case QueryActive => QueryActiveKeeps(cfg, s, t, r);
      case VerifyEvidence => VerifyEvidenceKeeps(cfg, s, t, r);
      case EvidenceUnreadable => EvidenceUnreadableKeeps(cfg, s, t, r);
      case Analyze(plan) => AnalyzeKeeps(cfg, s, t, r, plan);
      case FinalizeRun => FinalizeRunKeeps(cfg, s, t, r);
      case StartDatabaseFault => StartDatabaseFaultKeeps(cfg, s, t, r);
      case ClockFault => ClockFaultKeeps(cfg, s, t, r);
    }
  }

  lemma EveryStepKeeps(cfg: Config, s: State, t: State, e: Event)
    requires Inv(cfg, s) && Next(cfg, s, e, t)
    ensures Inv(cfg, t) && Onward(s, t)
  {
    match e {
      case OpenCase(c) => OpenCaseKeeps(cfg, s, t, c);
      case OutsideDelete(h) => OutsideDeleteKeeps(cfg, s, t, h);
      case OfIngest(r, step) => IngestStepKeeps(cfg, s, t, r, step);
      case OfStart(r, step) => StartStepKeeps(cfg, s, t, r, step);
    }
  }

  /** The invariant holds in every state of every run. */
  lemma {:induction false} EveryStateOk(cfg: Config, events: seq<Event>, states: seq<State>, i: nat)
    requires Behavior(cfg, events, states) && i < |states|
    ensures Inv(cfg, states[i])
  {
    if i > 0 {
      EveryStateOk(cfg, events, states, i - 1);
      assert StepAt(cfg, events, states, i - 1);
      EveryStepKeeps(cfg, states[i - 1], states[i], events[i - 1]);
    }
  }

  /** One step of a run, without the invariant behind it. */
  lemma StepOnward(cfg: Config, events: seq<Event>, states: seq<State>, i: nat)
    requires Behavior(cfg, events, states) && i < |events|
    ensures Onward(states[i], states[i + 1])
  {
    EveryStateOk(cfg, events, states, i);
    assert StepAt(cfg, events, states, i);
    EveryStepKeeps(cfg, states[i], states[i + 1], events[i]);
  }
}
