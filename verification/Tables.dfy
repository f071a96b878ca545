/**
 * The SQLite tables and the transactions that change them. A transaction either commits as a
 * whole or, when a constraint of the schema is violated, leaves the tables as they were.
 */
module Tables {
  import opened Prelude
  import opened MediaTypes

  datatype CaseStatus = CREATED | SEALED | ANALYZED

  /** What intake measured of an upload, and what a blob row records. */
  datatype Measured = Measured(sha256: Sha256, sha512: Sha512, byteLength: nat, mime: MediaType)

  datatype AssetRow = AssetRow(caseId: Id, sha256: Sha256)

  datatype RunStatus = RUNNING | COMPLETED | PARTIAL | REFUSED | FAILED

  /** The stored JSON of a terminal run: its status and whether integrity was VERIFIED. */
  datatype RunDoc = RunDoc(status: RunStatus, verified: bool)

  datatype RunRow = RunRow(caseId: Id, evidence: Id, profile: string, status: RunStatus, terminal: Option<RunDoc>)

  datatype ReportRow = ReportRow(
    reportId: Id, caseId: Id, evidence: Id, jsonUri: string, jsonSha256: Sha256, htmlUri: string, htmlSha256: Sha256,
    createdAt: string)

  datatype Tables = Tables(
    cases: map<Id, CaseStatus>,
    blobs: map<Sha256, Measured>,
    assets: map<Id, AssetRow>,
    runs: map<Id, RunRow>,
    results: set<(Id, string)>,     // (run, test)
    artifacts: set<(Id, string)>,   // (run, name): the storage URI is a function of the pair
    reports: map<Id, ReportRow>)    // keyed by run: analysis_run_id is unique

  const ANALYSIS_PROFILE := "structural-default-v1"

  const EMPTY := Tables(map[], map[], map[], map[], {}, {}, map[])

  // ---------------------------------------------------------------- invariants

  predicate HasEvidence(assets: map<Id, AssetRow>, c: Id) {
    exists e :: e in assets && assets[e].caseId == c
  }

  function Referenced(assets: map<Id, AssetRow>): set<Sha256> {
    set e | e in assets :: assets[e].sha256
  }

  /** A blob row exists exactly when an asset references it; (case, hash) pairs are unique. */
  predicate EvidenceConsistent(t: Tables) {
    && t.blobs.Keys == Referenced(t.assets)
    && (forall h :: h in t.blobs ==> t.blobs[h].sha256 == h)
    && (forall d, e :: d in t.assets && e in t.assets && t.assets[d] == t.assets[e] ==> d == e)
    && (forall e :: e in t.assets ==> t.assets[e].caseId in t.cases)
  }

  predicate RunRowOk(row: RunRow, assets: map<Id, AssetRow>) {
    && row.evidence in assets
    && assets[row.evidence].caseId == row.caseId
    && (row.status.RUNNING? <==> row.terminal.None?)
    && (row.terminal.Some? ==> row.terminal.value.status == row.status)
  }

  /** At most one active run per evidence and profile. */
  predicate OneActive(runs: map<Id, RunRow>) {
    forall q, r :: q in runs && r in runs && SameActive(runs[q], runs[r]) ==> q == r
  }

  predicate SameActive(a: RunRow, b: RunRow) {
    a.status.RUNNING? && b.status.RUNNING? && a.evidence == b.evidence && a.profile == b.profile
  }

  /** Test results, artifacts and reports belong to terminal runs. */
  predicate ChildrenOk(t: Tables) {
    && (forall x :: x in t.results ==> Terminal(t, x.0))
    && (forall x :: x in t.artifacts ==> Terminal(t, x.0))
    && (forall r :: r in t.reports ==>
         Terminal(t, r) && t.reports[r].evidence == t.runs[r].evidence && t.reports[r].caseId == t.runs[r].caseId)
  }

  predicate RunsConsistent(t: Tables) {
    (forall r :: r in t.runs ==> RunRowOk(t.runs[r], t.assets)) && OneActive(t.runs) && ChildrenOk(t)
  }

  predicate Consistent(t: Tables) {
    EvidenceConsistent(t) && RunsConsistent(t)
  }

  /** The row that the content behind a hash calls for. */
  predicate RightRow(h: Sha256, m: Measured) {
    DetectMediaType(h.of).Some? && m == Measured(h, Sha512(h.of), |h.of|, DetectMediaType(h.of).value)
  }

  predicate RightRows(t: Tables) {
    forall h :: h in t.blobs ==> RightRow(h, t.blobs[h])
  }

  /** A case is CREATED exactly when it has no evidence. */
  ghost predicate StatusAgrees(t: Tables) {
    forall c :: c in t.cases ==> (t.cases[c].CREATED? <==> !HasEvidence(t.assets, c))
  }

  predicate Active(row: RunRow, evidence: Id, profile: string) {
    row.status.RUNNING? && row.evidence == evidence && row.profile == profile
  }

  predicate Terminal(t: Tables, r: Id) {
    r in t.runs && !t.runs[r].status.RUNNING?
  }

  // ---------------------------------------------------------------- record_evidence

  /**
   * Which columns a flush writes. SQLAlchemy's unit of work sends ChangedColumns: an
   * assignment equal to the value loaded earlier is not part of the UPDATE.
   * AssignedColumns writes every assignment.
   */
  datatype Flush = AssignedColumns | ChangedColumns

  /** What the read phase of record_evidence loaded. */
  datatype Seen = Seen(status: CaseStatus, blobPresent: bool)

  datatype ReadOutcome = NoCase | Reuse(evidence: Id) | Mismatch | Insert(seen: Seen)

  ghost function FindCaseBlob(t: Tables, c: Id, h: Sha256): Option<Id> {
    if h in t.blobs && exists e :: e in t.assets && t.assets[e] == AssetRow(c, h) then
      var e :| e in t.assets && t.assets[e] == AssetRow(c, h);
      Some(e)
    else
      None
  }

  /** The SELECTs of record_evidence; they run before the first INSERT takes a lock. */
  ghost function RecordRead(t: Tables, c: Id, m: Measured): ReadOutcome {
    if c !in t.cases then NoCase
    else if FindCaseBlob(t, c, m.sha256).Some? then Reuse(FindCaseBlob(t, c, m.sha256).value)
    else if m.sha256 !in t.blobs then Insert(Seen(t.cases[c], false))
    else if t.blobs[m.sha256] != m then Mismatch
    else Insert(Seen(t.cases[c], true))
  }

  /** Primary keys, UNIQUE(case_id, blob_sha256) and the foreign keys of the inserted rows. */
  predicate RecordAllowed(t: Tables, e: Id, c: Id, m: Measured, seen: Seen) {
    && (m.sha256 in t.blobs <==> seen.blobPresent)
    && c in t.cases
    && e !in t.assets
    && (forall d :: d in t.assets ==> t.assets[d] != AssetRow(c, m.sha256))
  }

  function SealedStatus(flush: Flush, seen: Seen, current: CaseStatus): CaseStatus {
    if flush.ChangedColumns? && seen.status.SEALED? then current else SEALED
  }

  /** The write transaction of record_evidence; None is an IntegrityError. */
  function RecordCommit(flush: Flush, t: Tables, e: Id, c: Id, m: Measured, seen: Seen): Option<Tables> {
    if !RecordAllowed(t, e, c, m, seen) then None
    else Some(t.(
      blobs := if seen.blobPresent then t.blobs else t.blobs[m.sha256 := m],
      assets := t.assets[e := AssetRow(c, m.sha256)],
      cases := t.cases[c := SealedStatus(flush, seen, t.cases[c])]))
  }

  // ---------------------------------------------------------------- compensate_missing_object

  /** The RESTRICT foreign keys on evidence_id. */
  predicate Restricted(t: Tables, e: Id) {
    || (exists r :: r in t.runs && t.runs[r].evidence == e)
    || (exists r :: r in t.reports && t.reports[r].evidence == e)
  }

  /** Deletes the association, its blob row when nothing else uses it, and unseals an emptied case. */
  function Compensate(t: Tables, e: Id, h: Sha256, loadedCase: Option<Id>): Option<Tables> {
    if e in t.assets && Restricted(t, e) then None
    else
      var assets := t.assets - {e};
      Some(t.(
        assets := assets,
        blobs := if h in Referenced(assets) then t.blobs else t.blobs - {h},
        cases := if loadedCase.Some? && loadedCase.value in t.cases && !HasEvidence(assets, loadedCase.value)
                 then t.cases[loadedCase.value := CREATED] else t.cases))
  }

  /** What the asset row read before the DELETE says of the compensation's arguments. */
  predicate CompensationArgs(t: Tables, e: Id, h: Sha256, loadedCase: Option<Id>) {
    e in t.assets ==> t.assets[e].sha256 == h && loadedCase == Some(t.assets[e].caseId)
  }

  // ---------------------------------------------------------------- structural runs

  predicate RunAllowed(t: Tables, r: Id, c: Id, e: Id, profile: string) {
    && r !in t.runs
    && c in t.cases
    && e in t.assets
    && (forall q :: q in t.runs ==> !Active(t.runs[q], e, profile))
  }

  function CreateRun(t: Tables, r: Id, c: Id, e: Id, profile: string): Option<Tables> {
    if !RunAllowed(t, r, c, e, profile) then None
    else Some(t.(runs := t.runs[r := RunRow(c, e, profile, RUNNING, None)]))
  }

  datatype FinalizeOutcome = NotFound | AlreadyTerminal | Violation | Finalized(t: Tables)

  function RowsOf(r: Id, names: seq<string>): set<(Id, string)> {
    set i | 0 <= i < |names| :: (r, names[i])
  }

  predicate FinalizeAllowed(t: Tables, r: Id, tests: seq<string>, artifacts: seq<string>, report: Option<ReportRow>) {
    && Distinct(tests) && RowsOf(r, tests) !! t.results
    && Distinct(artifacts) && RowsOf(r, artifacts) !! t.artifacts
    && (report.Some? ==> r !in t.reports && report.value.caseId in t.cases && report.value.evidence in t.assets)
  }

  function Finalize(t: Tables, r: Id, doc: RunDoc, tests: seq<string>, artifacts: seq<string>,
                    report: Option<ReportRow>): FinalizeOutcome {
    if r !in t.runs then NotFound
    else if !t.runs[r].status.RUNNING? then AlreadyTerminal
    else if !FinalizeAllowed(t, r, tests, artifacts, report) then Violation
    else Finalized(t.(
      runs := t.runs[r := t.runs[r].(status := doc.status, terminal := Some(doc))],
      results := t.results + RowsOf(r, tests),
      artifacts := t.artifacts + RowsOf(r, artifacts),
      reports := if report.Some? then t.reports[r := report.value] else t.reports,
      cases := if (doc.status.COMPLETED? || doc.status.PARTIAL?) && t.runs[r].caseId in t.cases
               then t.cases[t.runs[r].caseId := ANALYZED] else t.cases))
  }

  /** The rows that finalizing a run leaves behind, table by table. */
  lemma FinalizeStores(t: Tables, r: Id, doc: RunDoc, tests: seq<string>, artifacts: seq<string>,
                       report: Option<ReportRow>)
    requires Finalize(t, r, doc, tests, artifacts, report).Finalized?
    ensures r in t.runs && t.runs[r].status.RUNNING?
    ensures var row, u := t.runs[r], Finalize(t, r, doc, tests, artifacts, report).t;
      && (forall x :: x in u.results <==> x in t.results || (x.0 == r && x.1 in tests))
      && (forall x :: x in u.artifacts <==> x in t.artifacts || (x.0 == r && x.1 in artifacts))
      && u.runs == t.runs[r := RunRow(row.caseId, row.evidence, row.profile, doc.status, Some(doc))]
      && (report.None? ==> u.reports == t.reports) && (report.Some? ==> u.reports == t.reports[r := report.value])
      && u.blobs == t.blobs && u.assets == t.assets && u.cases.Keys == t.cases.Keys
      && (forall c :: c in t.cases ==>
            u.cases[c] == if c == row.caseId && doc.status in {COMPLETED, PARTIAL} then ANALYZED else t.cases[c])
  {
    forall x ensures x in RowsOf(r, tests) <==> x.0 == r && x.1 in tests { RowsOfExactly(r, tests, x); }
    forall x ensures x in RowsOf(r, artifacts) <==> x.0 == r && x.1 in artifacts { RowsOfExactly(r, artifacts, x); }
  }

  /** The rows that a compensation leaves behind, table by table. */
  lemma UndoLeaves(t: Tables, e: Id, h: Sha256, loadedCase: Option<Id>)
    requires Compensate(t, e, h, loadedCase).Some?
    ensures var u := Compensate(t, e, h, loadedCase).value;
      && u.assets == t.assets - {e} && u.runs == t.runs && u.reports == t.reports
      && u.results == t.results && u.artifacts == t.artifacts && u.cases.Keys == t.cases.Keys
      && (forall k :: k in u.blobs <==>
            k in t.blobs && (k == h ==> exists d :: d in u.assets && u.assets[d].sha256 == h))
      && (forall k :: k in u.blobs ==> u.blobs[k] == t.blobs[k])
      && (forall k :: k in u.cases ==>
            u.cases[k] == if loadedCase == Some(k) && (forall d :: d in u.assets ==> u.assets[d].caseId != k)
                          then CREATED else t.cases[k])
  {
    var u := Compensate(t, e, h, loadedCase).value;
    assert h in Referenced(u.assets) <==> exists d :: d in u.assets && u.assets[d].sha256 == h;
  }

  /** When a run is finalized, and why it is not. */
  lemma FinalizeDecides(t: Tables, r: Id, doc: RunDoc, tests: seq<string>, artifacts: seq<string>,
                        report: Option<ReportRow>)
    ensures var outcome := Finalize(t, r, doc, tests, artifacts, report);
      && (outcome.NotFound? <==> r !in t.runs)
      && (outcome.AlreadyTerminal? <==> r in t.runs && !t.runs[r].status.RUNNING?)
      && (outcome.Finalized? <==>
            && r in t.runs && t.runs[r].status.RUNNING? && Distinct(tests) && Distinct(artifacts)
            && (forall x :: x in t.results ==> !(x.0 == r && x.1 in tests))
            && (forall x :: x in t.artifacts ==> !(x.0 == r && x.1 in artifacts))
            && (report.Some? ==>
                  r !in t.reports && report.value.caseId in t.cases && report.value.evidence in t.assets))
  {
    forall x ensures x in RowsOf(r, tests) <==> x.0 == r && x.1 in tests { RowsOfExactly(r, tests, x); }
    forall x ensures x in RowsOf(r, artifacts) <==> x.0 == r && x.1 in artifacts { RowsOfExactly(r, artifacts, x); }
  }

  lemma RowsOfExactly(r: Id, names: seq<string>, x: (Id, string))
    ensures x in RowsOf(r, names) <==> x.0 == r && x.1 in names
  {
    if x.0 == r && x.1 in names {
      var i :| 0 <= i < |names| && names[i] == x.1;
      assert x == (r, names[i]);
    }
  }

  // ---------------------------------------------------------------- every transaction keeps the tables consistent

  datatype Tx =
    | NewCase(c: Id)
    | Record(e: Id, c: Id, m: Measured, seen: Seen)
    | Undo(e: Id, h: Sha256, loadedCase: Option<Id>)
    | NewRun(r: Id, c: Id, e: Id, profile: string)
    | Finish(r: Id, doc: RunDoc, tests: seq<string>, artifacts: seq<string>, report: Option<ReportRow>)

  /** What the callers of the repository guarantee of a transaction's arguments. */
  predicate WellFormed(t: Tables, tx: Tx) {
    match tx
    case NewCase(_) => true
    case Record(_, _, _, _) => true
    case Undo(e, h, loadedCase) => CompensationArgs(t, e, h, loadedCase)
    case NewRun(_, c, e, _) => e in t.assets ==> t.assets[e].caseId == c
    case Finish(r, doc, _, _, report) =>
      && !doc.status.RUNNING?
      && (r in t.runs && report.Some? ==>
           report.value.evidence == t.runs[r].evidence && report.value.caseId == t.runs[r].caseId)
  }

  /** The tables after a transaction; a refused one changes nothing. */
  function Apply(flush: Flush, t: Tables, tx: Tx): Tables {
    match tx
    case NewCase(c) => if c in t.cases then t else t.(cases := t.cases[c := CREATED])
    case Record(e, c, m, seen) => (match RecordCommit(flush, t, e, c, m, seen) case Some(u) => u case None => t)
    case Undo(e, h, loadedCase) => (match Compensate(t, e, h, loadedCase) case Some(u) => u case None => t)
    case NewRun(r, c, e, profile) => (match CreateRun(t, r, c, e, profile) case Some(u) => u case None => t)
    case Finish(r, doc, tests, artifacts, report) =>
      (match Finalize(t, r, doc, tests, artifacts, report) case Finalized(u) => u case _ => t)
  }

  lemma RecordKeepsConsistent(flush: Flush, t: Tables, e: Id, c: Id, m: Measured, seen: Seen)
    requires Consistent(t) && RecordAllowed(t, e, c, m, seen)
    ensures Consistent(RecordCommit(flush, t, e, c, m, seen).value)
  {
    var u := RecordCommit(flush, t, e, c, m, seen).value;
    assert u.assets[e] == AssetRow(c, m.sha256);
    forall h ensures h in Referenced(u.assets) <==> h in u.blobs {
      if h in Referenced(t.assets) {
        var d :| d in t.assets && t.assets[d].sha256 == h;
        assert u.assets[d].sha256 == h;
      }
    }
    assert u.blobs.Keys == Referenced(u.assets);
  }

  /** The RESTRICT keys are what keeps a run's evidence row: without them `runs` would dangle. */
  lemma CompensateKeepsConsistent(t: Tables, e: Id, h: Sha256, loadedCase: Option<Id>)
    requires Consistent(t) && CompensationArgs(t, e, h, loadedCase)
    requires !(e in t.assets && Restricted(t, e))
    ensures Consistent(Compensate(t, e, h, loadedCase).value)
  {
    var u := Compensate(t, e, h, loadedCase).value;
    forall k ensures k in Referenced(u.assets) <==> k in u.blobs {
      if k in t.blobs {
        var d :| d in t.assets && t.assets[d].sha256 == k;
        if d != e { assert u.assets[d].sha256 == k; }
      }
    }
    assert u.blobs.Keys == Referenced(u.assets);
  }

  lemma FinalizeKeepsConsistent(t: Tables, r: Id, doc: RunDoc, tests: seq<string>, artifacts: seq<string>,
                                report: Option<ReportRow>)
    requires Consistent(t) && WellFormed(t, Finish(r, doc, tests, artifacts, report))
    requires Finalize(t, r, doc, tests, artifacts, report).Finalized?
    ensures Consistent(Finalize(t, r, doc, tests, artifacts, report).t)
  {
    var u := Finalize(t, r, doc, tests, artifacts, report).t;
    assert EvidenceConsistent(u);
    forall q | q in u.runs ensures RunRowOk(u.runs[q], u.assets) {
      assert RunRowOk(t.runs[q], t.assets);
    }
    forall p, q | p in u.runs && q in u.runs && SameActive(u.runs[p], u.runs[q]) ensures p == q {
      assert SameActive(t.runs[p], t.runs[q]);
    }
    assert ChildrenOk(u) by { FinalizeKeepsChildren(t, r, doc, tests, artifacts, report); }
  }

  lemma FinalizeKeepsChildren(t: Tables, r: Id, doc: RunDoc, tests: seq<string>, artifacts: seq<string>,
                              report: Option<ReportRow>)
    requires ChildrenOk(t) && WellFormed(t, Finish(r, doc, tests, artifacts, report))
    requires Finalize(t, r, doc, tests, artifacts, report).Finalized?
    ensures ChildrenOk(Finalize(t, r, doc, tests, artifacts, report).t)
  {
    var u := Finalize(t, r, doc, tests, artifacts, report).t;
    forall x | x in u.results ensures Terminal(u, x.0) { assert x in t.results || x.0 == r; }
    forall x | x in u.artifacts ensures Terminal(u, x.0) { assert x in t.artifacts || x.0 == r; }
  }

  lemma CreateRunKeepsConsistent(t: Tables, r: Id, c: Id, e: Id, profile: string)
    requires Consistent(t) && RunAllowed(t, r, c, e, profile) && t.assets[e].caseId == c
    ensures Consistent(CreateRun(t, r, c, e, profile).value)
  {
    var u := CreateRun(t, r, c, e, profile).value;
    assert EvidenceConsistent(u);
    forall q | q in u.runs ensures RunRowOk(u.runs[q], u.assets) {
      if q != r { assert RunRowOk(t.runs[q], t.assets); }
    }
    forall p, q | p in u.runs && q in u.runs && SameActive(u.runs[p], u.runs[q]) ensures p == q {
      if p != r && q != r { assert SameActive(t.runs[p], t.runs[q]); }
    }
  }

  lemma TransactionsKeepConsistent(flush: Flush, t: Tables, tx: Tx)
    requires Consistent(t) && WellFormed(t, tx)
    ensures Consistent(Apply(flush, t, tx))
  {
    match tx {
      case NewCase(c) =>
      case Record(e, c, m, seen) =>
        if RecordAllowed(t, e, c, m, seen) { RecordKeepsConsistent(flush, t, e, c, m, seen); }
      case Undo(e, h, loadedCase) =>
        if !(e in t.assets && Restricted(t, e)) { CompensateKeepsConsistent(t, e, h, loadedCase); }
      case NewRun(r, c, e, profile) =>
        if RunAllowed(t, r, c, e, profile) { CreateRunKeepsConsistent(t, r, c, e, profile); }
      case Finish(r, doc, tests, artifacts, report) =>
        if Finalize(t, r, doc, tests, artifacts, report).Finalized? {
          FinalizeKeepsConsistent(t, r, doc, tests, artifacts, report);
        }
    }
  }

  // ---------------------------------------------------------------- the case status

  /** A write that relied on a SEALED status another transaction has since undone. */
  predicate StaleSeal(flush: Flush, t: Tables, c: Id, seen: Seen) {
    flush.ChangedColumns? && seen.status.SEALED? && c in t.cases && t.cases[c].CREATED?
  }

  /** Recording evidence keeps the case status right exactly when its write is not a stale seal. */
  lemma RecordStatusExact(flush: Flush, t: Tables, e: Id, c: Id, m: Measured, seen: Seen)
    requires StatusAgrees(t) && RecordAllowed(t, e, c, m, seen)
    ensures StatusAgrees(RecordCommit(flush, t, e, c, m, seen).value) <==> !StaleSeal(flush, t, c, seen)
  {
    var u := RecordCommit(flush, t, e, c, m, seen).value;
    assert u.assets[e].caseId == c;
    assert HasEvidence(u.assets, c);
    forall k: Id | k != c ensures HasEvidence(u.assets, k) <==> HasEvidence(t.assets, k) {
      if HasEvidence(t.assets, k) { var d :| d in t.assets && t.assets[d].caseId == k; assert u.assets[d].caseId == k; }
    }
  }

  lemma CompensateKeepsStatus(t: Tables, e: Id, h: Sha256, loadedCase: Option<Id>)
    requires StatusAgrees(t) && CompensationArgs(t, e, h, loadedCase) && Compensate(t, e, h, loadedCase).Some?
    ensures StatusAgrees(Compensate(t, e, h, loadedCase).value)
  {
    var u := Compensate(t, e, h, loadedCase).value;
    forall k: Id | loadedCase != Some(k) ensures HasEvidence(u.assets, k) <==> HasEvidence(t.assets, k) {
      if HasEvidence(t.assets, k) { var d :| d in t.assets && t.assets[d].caseId == k; assert u.assets[d].caseId == k; }
    }
  }

  lemma FinalizeKeepsStatus(t: Tables, r: Id, doc: RunDoc, tests: seq<string>, artifacts: seq<string>,
                            report: Option<ReportRow>)
    requires StatusAgrees(t) && Finalize(t, r, doc, tests, artifacts, report).Finalized?
    requires RunRowOk(t.runs[r], t.assets)
    ensures StatusAgrees(Finalize(t, r, doc, tests, artifacts, report).t)
  {
    assert t.assets[t.runs[r].evidence].caseId == t.runs[r].caseId;
  }

  /** The other transactions never disturb it: a terminal run's case always has evidence. */
  lemma TransactionStatusExact(flush: Flush, t: Tables, tx: Tx)
    requires Consistent(t) && StatusAgrees(t) && WellFormed(t, tx)
    ensures StatusAgrees(Apply(flush, t, tx)) <==>
      !(tx.Record? && RecordAllowed(t, tx.e, tx.c, tx.m, tx.seen) && StaleSeal(flush, t, tx.c, tx.seen))
  {
    match tx {
      case NewCase(c) =>
      case Record(e, c, m, seen) => if RecordAllowed(t, e, c, m, seen) { RecordStatusExact(flush, t, e, c, m, seen); }
      case Undo(e, h, loadedCase) =>
        if Compensate(t, e, h, loadedCase).Some? { CompensateKeepsStatus(t, e, h, loadedCase); }
      case NewRun(r, c, e, profile) =>
      case Finish(r, doc, tests, artifacts, report) =>
        if Finalize(t, r, doc, tests, artifacts, report).Finalized? {
          FinalizeKeepsStatus(t, r, doc, tests, artifacts, report);
        }
    }
  }

  // ---------------------------------------------------------------- blob rows are those of the content

  /** Every blob row after a transaction was there before, or is the one just recorded. */
  lemma BlobRowsComeFrom(flush: Flush, t: Tables, tx: Tx)
    ensures var u := Apply(flush, t, tx);
      forall h :: h in u.blobs ==>
        (h in t.blobs && u.blobs[h] == t.blobs[h]) || (tx.Record? && h == tx.m.sha256 && u.blobs[h] == tx.m)
  {
  }

  // ---------------------------------------------------------------- runs are final

  /** No transaction removes a run or changes a terminal one. */
  lemma TerminalRunsAreFinal(flush: Flush, t: Tables, tx: Tx, r: Id)
    requires Consistent(t) && WellFormed(t, tx) && r in t.runs
    ensures r in Apply(flush, t, tx).runs
    ensures Terminal(t, r) ==> Apply(flush, t, tx).runs[r] == t.runs[r]
    ensures r in t.reports ==> r in Apply(flush, t, tx).reports && Apply(flush, t, tx).reports[r] == t.reports[r]
    ensures Apply(flush, t, tx).runs[r] == t.runs[r] || (t.runs[r].status.RUNNING? && tx.Finish? && tx.r == r)
  {
  }
}
