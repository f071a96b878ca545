/** The repository of the API: one object over the tables, other clients writing beside it. */
module Repository {
  import opened Prelude
  import opened Tables
  import opened Timestamps

  datatype Inserted = Inserted(evidence: Id, associationReused: bool)

  datatype RecordError = CaseMissing | MetadataMismatch | IntegrityError

  datatype RunError = ActiveRun | RunIntegrityError

  /**
   * The rows that all clients share, with every association ever committed: an identifier is
   * never used for a second one.
   */
  datatype Shared = Shared(rows: Tables, minted: map<Id, AssetRow>)

  predicate SharedOk(v: Shared) {
    && Consistent(v.rows)
    && (forall e :: e in v.rows.assets ==> e in v.minted && v.minted[e] == v.rows.assets[e])
  }

  /** Later, a run is the same run, and the same in all its columns once it was terminal. */
  predicate SameRun(a: RunRow, b: RunRow) {
    a.caseId == b.caseId && a.evidence == b.evidence && a.profile == b.profile && (a.status.RUNNING? || a == b)
  }

  /**
   * What other clients may do while this one, which owns the identifier `mine`, holds no lock.
   * They neither commit an association under its identifier nor touch its run, and they record
   * content as it is. They may take its association back, as a duplicate upload that reused it
   * does when its own final check fails.
   */
  predicate Interference(v: Shared, w: Shared, mine: Id) {
    && SharedOk(w)
    && (mine in w.minted ==> mine in v.minted)
    && (forall e :: e in v.minted ==> e in w.minted && w.minted[e] == v.minted[e])
    && (forall e :: e in v.minted && e in w.rows.assets ==> e in v.rows.assets)
    && (forall h :: h in w.rows.blobs ==>
          (h in v.rows.blobs && w.rows.blobs[h] == v.rows.blobs[h]) || RightRow(h, w.rows.blobs[h]))
    && (mine in w.rows.runs ==> mine in v.rows.runs && w.rows.runs[mine] == v.rows.runs[mine])
    && (forall r :: r in v.rows.runs ==> r in w.rows.runs && SameRun(v.rows.runs[r], w.rows.runs[r]))
    && (forall r :: r in v.rows.reports ==> r in w.rows.reports && w.rows.reports[r] == v.rows.reports[r])
  }

  /** The shared rows after a transaction. */
  function Committed(flush: Flush, v: Shared, tx: Tx): Shared {
    Shared(
      Apply(flush, v.rows, tx),
      if tx.Record? && RecordAllowed(v.rows, tx.e, tx.c, tx.m, tx.seen)
      then v.minted[tx.e := AssetRow(tx.c, tx.m.sha256)] else v.minted)
  }

  /** A transaction of another client: it mints new identifiers, none of them `mine`, for content measured right. */
  predicate Foreign(v: Shared, tx: Tx, mine: Id) {
    match tx
    case Record(e, _, m, _) => e != mine && e !in v.minted && RightRow(m.sha256, m)
    case NewRun(r, _, _, _) => r != mine
    case Finish(r, _, _, _, _) => r != mine
    case _ => true
  }

  lemma RecordKeepsShared(flush: Flush, v: Shared, e: Id, c: Id, m: Measured, seen: Seen)
    requires SharedOk(v) && e !in v.minted && RecordAllowed(v.rows, e, c, m, seen)
    ensures SharedOk(Committed(flush, v, Record(e, c, m, seen)))
  {
    RecordKeepsConsistent(flush, v.rows, e, c, m, seen);
  }

  /** A transaction that commits no association keeps the shared rows in order. */
  lemma TransactionsKeepShared(flush: Flush, v: Shared, tx: Tx)
    requires SharedOk(v) && WellFormed(v.rows, tx) && !tx.Record?
    ensures SharedOk(Committed(flush, v, tx))
    ensures StatusAgrees(v.rows) ==> StatusAgrees(Committed(flush, v, tx).rows)
  {
    TransactionsKeepConsistent(flush, v.rows, tx);
    if StatusAgrees(v.rows) { TransactionStatusExact(flush, v.rows, tx); }
  }

  lemma RunsStaySame(flush: Flush, t: Tables, tx: Tx)
    requires Consistent(t) && WellFormed(t, tx)
    ensures var u := Apply(flush, t, tx);
      && (forall r :: r in t.runs ==> r in u.runs && SameRun(t.runs[r], u.runs[r]))
      && (forall r :: r in t.reports ==> r in u.reports && u.reports[r] == t.reports[r])
  {
    var u := Apply(flush, t, tx);
    forall r | r in t.runs ensures r in u.runs && SameRun(t.runs[r], u.runs[r]) {
      TerminalRunsAreFinal(flush, t, tx, r);
    }
    forall r | r in t.reports ensures r in u.reports && u.reports[r] == t.reports[r] {
      TerminalRunsAreFinal(flush, t, tx, r);
    }
  }

  /** The transactions of other clients interfere no more than that. */
  lemma ForeignTransactionsInterfere(flush: Flush, v: Shared, tx: Tx, mine: Id)
    requires SharedOk(v) && WellFormed(v.rows, tx) && Foreign(v, tx, mine)
    ensures Interference(v, Committed(flush, v, tx), mine)
  {
    TransactionsKeepConsistent(flush, v.rows, tx);
    RunsStaySame(flush, v.rows, tx);
    BlobRowsComeFrom(flush, v.rows, tx);
    assert SharedOk(Committed(flush, v, tx));
  }

  /** Any number of them interfere no more than one. */
  lemma InterferenceComposes(u: Shared, v: Shared, w: Shared, mine: Id)
    requires SharedOk(u)
    ensures Interference(u, u, mine)
    ensures Interference(u, v, mine) && Interference(v, w, mine) ==> Interference(u, w, mine)
  {
  }

  /** An association that a run refers to is taken back by nobody. */
  lemma ReferredAssociationsStay(v: Shared, w: Shared, mine: Id, e: Id)
    requires SharedOk(v) && Interference(v, w, mine) && e in v.rows.assets && Restricted(v.rows, e)
    ensures e in w.rows.assets && w.rows.assets[e] == v.rows.assets[e]
  {
    assert forall r :: r in v.rows.reports ==>
      Terminal(v.rows, r) && v.rows.runs[r].evidence == v.rows.reports[r].evidence;
    var r :| r in v.rows.runs && v.rows.runs[r].evidence == e;
    assert RunRowOk(w.rows.runs[r], w.rows.assets);
  }

  /**
   * What record_evidence makes of `v`, when others turn it into `written` before its write
   * transaction, and into `w` after that was refused.
   */
  ghost predicate Recording(flush: Flush, v: Shared, written: Shared, w: Shared, mine: Id, c: Id, m: Measured,
                            r: Result<Inserted, RecordError>) {
    match RecordRead(v.rows, c, m)
    case NoCase => r == Err(CaseMissing) && w == v
    case Mismatch => r == Err(MetadataMismatch) && w == v
    case Reuse(e) => r == Ok(Inserted(e, true)) && w == v
    case Insert(seen) =>
      && Interference(v, written, mine)
      && (match RecordCommit(flush, written.rows, mine, c, m, seen)
          case Some(u) => r == Ok(Inserted(mine, false)) && w.rows == u
          case None => Interference(written, w, mine) && r == AfterConflict(FindCaseBlob(w.rows, c, m.sha256)))
  }

  lemma OthersKeepRight(v: Shared, w: Shared, mine: Id)
    requires Interference(v, w, mine) && RightRows(v.rows)
    ensures RightRows(w.rows)
  {
  }

  lemma CommittedRightly(flush: Flush, v: Shared, w: Shared, mine: Id, c: Id, m: Measured, seen: Seen)
    requires RecordRead(v.rows, c, m) == Insert(seen) && Interference(v, w, mine) && RightRow(m.sha256, m)
    requires RecordAllowed(w.rows, mine, c, m, seen)
    ensures var u := RecordCommit(flush, w.rows, mine, c, m, seen).value;
      m.sha256 in u.blobs && u.blobs[m.sha256] == m && (RightRows(v.rows) ==> RightRows(u))
  {
    if RightRows(v.rows) { OthersKeepRight(v, w, mine); }
  }

  /**
   * For content measured right: a new association has exactly the measured blob row, whatever
   * others did; and if all blob rows were right before, they are so afterwards.
   */
  lemma RecordedRightly(flush: Flush, v: Shared, written: Shared, w: Shared, mine: Id, c: Id, m: Measured,
                        r: Result<Inserted, RecordError>)
    requires Recording(flush, v, written, w, mine, c, m, r) && RightRow(m.sha256, m)
    ensures r.Ok? && !r.value.associationReused ==> m.sha256 in w.rows.blobs && w.rows.blobs[m.sha256] == m
    ensures RightRows(v.rows) ==> RightRows(w.rows)
  {
    var look := RecordRead(v.rows, c, m);
    if look.Insert? {
      if RecordAllowed(written.rows, mine, c, m, look.seen) {
        CommittedRightly(flush, v, written, mine, c, m, look.seen);
      } else if RightRows(v.rows) {
        OthersKeepRight(v, written, mine);
        OthersKeepRight(written, w, mine);
      }
    }
  }

  /** The case of the asset row read before the DELETE. */
  function LoadedCase(assets: map<Id, AssetRow>, e: Id): Option<Id> {
    if e in assets then Some(assets[e].caseId) else None
  }

  /** The answer of the second look after an IntegrityError. */
  function AfterConflict(found: Option<Id>): Result<Inserted, RecordError> {
    if found.Some? then Ok(Inserted(found.value, true)) else Err(IntegrityError)
  }

  function ListedStatus(row: RunRow): RunStatus {
    if row.terminal.Some? then row.terminal.value.status else RUNNING
  }

  /** Newest first by stamp, then by identifier. */
  predicate Newer(a: ReportRow, b: ReportRow) {
    LexLess(b.createdAt, a.createdAt) || (a.createdAt == b.createdAt && b.reportId < a.reportId)
  }

  /** No two reports tie, unless they share stamp and identifier: the newest of a case is unique. */
  lemma NewestIsUnique(a: ReportRow, b: ReportRow)
    requires !Newer(a, b) && !Newer(b, a)
    ensures a.createdAt == b.createdAt && a.reportId == b.reportId
  {
    LexTotal(a.createdAt, b.createdAt);
  }

  // ---------------------------------------------------------------- listing runs

  datatype ListedRun = ListedRun(id: Id, startedAt: string, status: RunStatus)

  /** ORDER BY started_at DESC, analysis_run_id DESC. */
  predicate StartedLater(a: ListedRun, b: ListedRun) {
    LexLess(b.startedAt, a.startedAt) || (a.startedAt == b.startedAt && b.id < a.id)
  }

  predicate NewestFirst(s: seq<ListedRun>) {
    forall i, j :: 0 <= i < j < |s| ==> StartedLater(s[i], s[j])
  }

  lemma StartedLaterIsTransitive(a: ListedRun, b: ListedRun, c: ListedRun)
    requires StartedLater(a, b) && StartedLater(b, c)
    ensures StartedLater(a, c)
  {
    if LexLess(b.startedAt, a.startedAt) && LexLess(c.startedAt, b.startedAt) {
      LexTransitive(c.startedAt, b.startedAt, a.startedAt);
    }
  }

  /** What is listed first did not start before what is listed after it. */
  lemma ListedInTime(a: ListedRun, b: ListedRun, t: Time, u: Time)
    requires StartedLater(a, b) && Valid(t) && Valid(u) && a.startedAt == IsoFormat(t) && b.startedAt == IsoFormat(u)
    ensures !Before(t, u)
  {
    TextOrderIsTimeOrder(t, u);
    LexTotal(a.startedAt, b.startedAt);
    NotLess(a.startedAt);
  }

  function InsertRow(x: ListedRun, s: seq<ListedRun>): seq<ListedRun> {
    if s == [] || StartedLater(x, s[0]) then [x] + s else [s[0]] + InsertRow(x, s[1..])
  }

  lemma {:induction false} InsertRowKeepsOrder(x: ListedRun, s: seq<ListedRun>)
    requires NewestFirst(s) && forall y :: y in s ==> y.id != x.id
    ensures NewestFirst(InsertRow(x, s))
    ensures forall y :: y in InsertRow(x, s) <==> y == x || y in s
  {
    if s != [] {
      assert s == [s[0]] + s[1..];
      if StartedLater(x, s[0]) {
        forall i | 0 < i < |s| ensures StartedLater(x, s[i]) { StartedLaterIsTransitive(x, s[0], s[i]); }
      } else {
        InsertRowKeepsOrder(x, s[1..]);
        LexTotal(x.startedAt, s[0].startedAt);
        var rest := InsertRow(x, s[1..]);
        forall i | 0 <= i < |rest| ensures StartedLater(s[0], rest[i]) { assert rest[i] in rest; }
      }
    }
  }

  class Repository {
    const flush: Flush
    /** When each run was started, as text; the rows of Tables leave it out. */
    var startedAt: map<Id, string>
    var cases: map<Id, CaseStatus>
    var blobs: map<Sha256, Measured>
    var assets: map<Id, AssetRow>
    var runs: map<Id, RunRow>
    var results: set<(Id, string)>
    var artifacts: set<(Id, string)>
    var reports: map<Id, ReportRow>
    /** Every association ever committed; the model keeps it, the program need not. */
    var minted: map<Id, AssetRow>

    ghost function Rows(): Tables
      reads this
    {
      Tables(cases, blobs, assets, runs, results, artifacts, reports)
    }

    ghost function Now(): Shared
      reads this
    {
      Shared(Rows(), minted)
    }

    constructor (flush: Flush)
      ensures this.flush == flush && Rows() == EMPTY && SharedOk(Now()) && StatusAgrees(Rows())
    {
      this.flush := flush;
      cases, blobs, assets, runs, results, artifacts, reports := map[], map[], map[], map[], {}, {}, map[];
      startedAt, minted := map[], map[];
    }

    method Store(t: Tables)
      modifies this
      ensures Rows() == t && startedAt == old(startedAt) && minted == old(minted)
    {
      cases, blobs, assets, runs := t.cases, t.blobs, t.assets, t.runs;
      results, artifacts, reports := t.results, t.artifacts, t.reports;
    }

    /** Between two statements outside a write transaction any number of others may commit. */
    method OthersCommit(mine: Id)
      requires SharedOk(Now())
      modifies this
      ensures Interference(old(Now()), Now(), mine)
      ensures forall r :: r in old(startedAt) ==> r in startedAt && startedAt[r] == old(startedAt[r])
    {
      var after: Tables, stamps: map<Id, string>, ledger: map<Id, AssetRow> := *, *, *;
      startedAt := stamps + startedAt;
      InterferenceComposes(Now(), Now(), Now(), mine);
      var now := Shared(Tables(cases, blobs, assets, runs, results, artifacts, reports), minted);
      if Interference(now, Shared(after, ledger), mine) {
        Store(after);
        minted := ledger;
      }
    }

    /** The join of _find_case_blob: at most one row. */
    method SelectCaseBlob(c: Id, h: Sha256) returns (found: Option<Id>)
      requires Consistent(Rows())
      ensures found == FindCaseBlob(Rows(), c, h)
      ensures found.Some? <==> exists e :: e in assets && assets[e] == AssetRow(c, h)
    {
      found := None;
      if h in blobs {
        if e :| e in assets && assets[e] == AssetRow(c, h) { found := Some(e); }
      }
      assert forall e :: e in assets && assets[e].sha256 == h ==> h in Referenced(assets);
    }

    /** The SELECTs of record_evidence. */
    method LookBeforeInsert(c: Id, m: Measured) returns (outcome: ReadOutcome)
      requires Consistent(Rows())
      ensures outcome == RecordRead(Rows(), c, m)
    {
      if c !in cases { return NoCase; }
      var existing := SelectCaseBlob(c, m.sha256);
      if existing.Some? { return Reuse(existing.value); }
      if m.sha256 !in blobs { return Insert(Seen(cases[c], false)); }
      if blobs[m.sha256] != m { return Mismatch; }
      return Insert(Seen(cases[c], true));
    }

    /** The write transaction of record_evidence; false is an IntegrityError, which changes nothing. */
    method InsertEvidence(c: Id, m: Measured, mine: Id, seen: Seen) returns (committed: bool)
      requires SharedOk(Now()) && mine !in minted
      modifies this
      ensures SharedOk(Now())
      ensures committed <==> RecordAllowed(old(Rows()), mine, c, m, seen)
      ensures Now() == Committed(flush, old(Now()), Record(mine, c, m, seen))
      ensures !committed ==> Now() == old(Now())
      ensures committed ==>
                && assets == old(assets)[mine := AssetRow(c, m.sha256)] && runs == old(runs) && reports == old(reports)
                && results == old(results) && artifacts == old(artifacts)
                && blobs == (if m.sha256 in old(blobs) then old(blobs) else old(blobs)[m.sha256 := m])
                && c in old(cases) && cases == old(cases)[c := cases[c]]
                && (cases[c].SEALED? || (flush.ChangedColumns? && seen.status.SEALED? && cases[c] == old(cases)[c]))
    {
      ghost var was := Now();
      // the blob's primary key, or the asset's foreign key
      if (m.sha256 in blobs) != seen.blobPresent { return false; }
      if c !in cases { return false; }
      if exists e :: e in assets && assets[e] == AssetRow(c, m.sha256) { return false; }
      RecordKeepsShared(flush, was, mine, c, m, seen);
      if !seen.blobPresent { blobs := blobs[m.sha256 := m]; }
      assets, minted := assets[mine := AssetRow(c, m.sha256)], minted[mine := AssetRow(c, m.sha256)];
      if flush.AssignedColumns? || !seen.status.SEALED? { cases := cases[c := SEALED]; }
      assert cases == was.rows.cases[c := SealedStatus(flush, seen, was.rows.cases[c])];
      assert Now() == Committed(flush, was, Record(mine, c, m, seen));
      committed := true;
    }

    /**
     * record_evidence: SELECTs, then one write transaction, then, after an IntegrityError, one
     * more SELECT. Whatever others commit in between, when it returns a success answers with an
     * association of this content in this case that is in the tables, its own exactly when it is
     * not reused, and a failure has committed none.
     */
    method RecordEvidence(c: Id, m: Measured, mine: Id)
      returns (r: Result<Inserted, RecordError>, ghost written: Shared)
      requires SharedOk(Now()) && mine !in minted
      modifies this
      ensures SharedOk(Now())
      ensures r.Ok? ==>
                r.value.evidence in assets && assets[r.value.evidence] == AssetRow(c, m.sha256) && m.sha256 in blobs
      ensures r.Ok? ==> (r.value.associationReused <==> r.value.evidence != mine)
      ensures mine in minted <==> r.Ok? && !r.value.associationReused
      ensures Recording(flush, old(Now()), written, Now(), mine, c, m, r)
      ensures r == Err(CaseMissing) <==> c !in old(cases)
      ensures c in old(cases) && (exists e :: e in old(assets) && old(assets)[e] == AssetRow(c, m.sha256)) ==>
                r.Ok? && r.value.associationReused && Now() == old(Now())
      ensures r == Err(MetadataMismatch) <==>
                && c in old(cases) && (forall e :: e in old(assets) ==> old(assets)[e] != AssetRow(c, m.sha256))
                && m.sha256 in old(blobs) && old(blobs)[m.sha256] != m
    {
      written := Now();
      var look := LookBeforeInsert(c, m);
      match look {
        case NoCase => return Err(CaseMissing), written;
        case Mismatch => return Err(MetadataMismatch), written;
        case Reuse(e) => return Ok(Inserted(e, true)), written;
        case Insert(seen) =>
          OthersCommit(mine);
          written := Now();
          var committed := InsertEvidence(c, m, mine, seen);
          if committed { return Ok(Inserted(mine, false)), written; }
          OthersCommit(mine);
          var existing := SelectCaseBlob(c, m.sha256);
          return AfterConflict(existing), written;
      }
    }

    /**
     * compensate_missing_object: the asset row is read, others may commit, then the DELETE starts
     * the write transaction. False when a RESTRICT key rolled it back, which changes nothing.
     */
    method CompensateMissingObject(e: Id, h: Sha256, mine: Id) returns (done: bool, ghost written: Shared)
      requires SharedOk(Now()) && e in minted && minted[e].sha256 == h
      modifies this
      ensures SharedOk(Now()) && Interference(old(Now()), written, mine)
      ensures done <==> !(e in written.rows.assets && Restricted(written.rows, e))
      ensures minted == written.minted && (!done ==> Rows() == written.rows)
      ensures done ==>
                && assets == written.rows.assets - {e} && runs == written.rows.runs && reports == written.rows.reports
                && results == written.rows.results && artifacts == written.rows.artifacts
                && (forall k :: k in blobs <==>
                      k in written.rows.blobs && (k == h ==> exists d :: d in assets && assets[d].sha256 == h))
                && (forall k :: k in blobs ==> blobs[k] == written.rows.blobs[k])
      ensures done ==>
                && cases.Keys == written.rows.cases.Keys
                && (forall k :: k in cases ==>
                      cases[k] == if e in old(assets) && old(assets)[e].caseId == k &&
                                     (forall d :: d in assets ==> assets[d].caseId != k) then CREATED
                                  else written.rows.cases[k])
      ensures done && StatusAgrees(written.rows) ==> StatusAgrees(Rows())
    {
      var loaded := LoadedCase(assets, e);
      OthersCommit(mine);
      written := Now();
      if Compensate(Rows(), e, h, loaded).Some? { UndoLeaves(Rows(), e, h, loaded); }
      done := DeleteAssociation(e, h, loaded);
    }

    /** The write transaction of compensate_missing_object. */
    method DeleteAssociation(e: Id, h: Sha256, loaded: Option<Id>) returns (done: bool)
      requires SharedOk(Now()) && CompensationArgs(Rows(), e, h, loaded)
      modifies this
      ensures SharedOk(Now()) && (old(StatusAgrees(Rows())) ==> StatusAgrees(Rows()))
      ensures done <==> !(e in old(assets) && Restricted(old(Rows()), e))
      ensures Now() == Committed(flush, old(Now()), Undo(e, h, loaded))
      ensures done ==> e !in assets
    {
      ghost var was := Now();
      TransactionsKeepShared(flush, was, Undo(e, h, loaded));
      var restricted := || (exists r :: r in runs && runs[r].evidence == e)
                        || (exists r :: r in reports && reports[r].evidence == e);
      if e in assets && restricted { return false; }
      assets := assets - {e};
      if h !in Referenced(assets) { blobs := blobs - {h}; }
      if loaded.Some? && loaded.value in cases && !HasEvidence(assets, loaded.value) {
        cases := cases[loaded.value := CREATED];
      }
      assert Now() == Committed(flush, was, Undo(e, h, loaded));
      done := true;
    }

    /** create_structural_run: one INSERT; a conflict is explained by one more SELECT. */
    method CreateStructuralRun(r: Id, c: Id, e: Id, profile: string, stamp: string)
      returns (outcome: Result<(), RunError>, ghost refused: Shared)
      requires SharedOk(Now()) && r !in runs && (e in assets ==> assets[e].caseId == c)
      modifies this
      ensures SharedOk(Now())
      ensures outcome.Ok? <==>
                && c in old(cases) && e in old(assets)
                && forall q | q in old(runs) && old(runs)[q].evidence == e && old(runs)[q].profile == profile ::
                     !old(runs)[q].status.RUNNING?
      ensures outcome.Ok? ==>
                && Rows() == old(Rows()).(runs := old(runs)[r := RunRow(c, e, profile, RUNNING, None)])
                && Started(r) == stamp && minted == old(minted)
      ensures outcome.Err? ==> r !in runs && refused == old(Now()) && Interference(refused, Now(), r)
      ensures outcome.Err? ==> (outcome.error.ActiveRun? <==> exists q :: q in runs && Active(runs[q], e, profile))
    {
      refused := Now();
      if c in cases && e in assets && forall q :: q in runs ==> !Active(runs[q], e, profile) {
        CreateRunKeepsConsistent(Rows(), r, c, e, profile);
        runs := runs[r := RunRow(c, e, profile, RUNNING, None)];
        startedAt := startedAt[r := stamp];
        return Ok(()), refused;
      }
      OthersCommit(r);
      if exists q :: q in runs && Active(runs[q], e, profile) { return Err(ActiveRun), refused; }
      return Err(RunIntegrityError), refused;
    }

    /**
     * finalize_structural_run: it ends the run and stores its rows, or changes nothing. Every
     * test and every artifact gets its row, under this run; nothing else gets or loses one.
     */
    method FinalizeStructuralRun(r: Id, doc: RunDoc, tests: seq<string>, names: seq<string>, report: Option<ReportRow>)
      returns (outcome: FinalizeOutcome)
      requires SharedOk(Now()) && WellFormed(Rows(), Finish(r, doc, tests, names, report))
      modifies this
      ensures SharedOk(Now()) && minted == old(minted)
      ensures outcome == Finalize(old(Rows()), r, doc, tests, names, report)
      ensures outcome.NotFound? <==> r !in old(runs)
      ensures outcome.AlreadyTerminal? <==> r in old(runs) && !old(runs)[r].status.RUNNING?
      ensures outcome.Finalized? <==>
                && r in old(runs) && old(runs)[r].status.RUNNING? && Distinct(tests) && Distinct(names)
                && (forall x :: x in old(results) ==> !(x.0 == r && x.1 in tests))
                && (forall x :: x in old(artifacts) ==> !(x.0 == r && x.1 in names))
                && (report.Some? ==>
                      r !in old(reports) && report.value.caseId in old(cases) && report.value.evidence in old(assets))
      ensures !outcome.Finalized? ==> Rows() == old(Rows())
      ensures outcome.Finalized? ==>
                && outcome.t == Rows() && r in old(runs) && old(runs)[r].status.RUNNING?
                && (forall x :: x in results <==> x in old(results) || (x.0 == r && x.1 in tests))
                && (forall x :: x in artifacts <==> x in old(artifacts) || (x.0 == r && x.1 in names))
                && runs == old(runs)[r := RunRow(old(runs)[r].caseId, old(runs)[r].evidence, old(runs)[r].profile,
                                                 doc.status, Some(doc))]
                && (report.None? ==> reports == old(reports))
                && (report.Some? ==> reports == old(reports)[r := report.value])
      ensures outcome.Finalized? ==>
                && blobs == old(blobs) && assets == old(assets) && cases.Keys == old(cases).Keys
                && (forall c :: c in cases ==>
                      cases[c] == if c == old(runs)[r].caseId && doc.status in {COMPLETED, PARTIAL} then ANALYZED
                                  else old(cases)[c])
    {
      FinalizeDecides(Rows(), r, doc, tests, names, report);
      if Finalize(Rows(), r, doc, tests, names, report).Finalized? {
        FinalizeStores(Rows(), r, doc, tests, names, report);
      }
      outcome := WriteTerminal(r, doc, tests, names, report);
    }

    /** Its transaction: rows are added one at a time and the first duplicate rolls all of it back. */
    method WriteTerminal(r: Id, doc: RunDoc, tests: seq<string>, names: seq<string>, report: Option<ReportRow>)
      returns (outcome: FinalizeOutcome)
      requires SharedOk(Now()) && WellFormed(Rows(), Finish(r, doc, tests, names, report))
      modifies this
      ensures SharedOk(Now()) && minted == old(minted)
      ensures outcome == Finalize(old(Rows()), r, doc, tests, names, report)
      ensures Rows() == if outcome.Finalized? then outcome.t else old(Rows())
    {
      TransactionsKeepShared(flush, Now(), Finish(r, doc, tests, names, report));
      if r !in runs { return NotFound; }
      if !runs[r].status.RUNNING? { return AlreadyTerminal; }
      var newResults, clash := AddRows(results, r, tests);
      var newArtifacts, artifactClash := AddRows(artifacts, r, names);
      if clash || artifactClash { return Violation; }
      if report.Some? && (r in reports || report.value.caseId !in cases || report.value.evidence !in assets) {
        return Violation;
      }
      var row := runs[r];
      results, artifacts := newResults, newArtifacts;
      if report.Some? { reports := reports[r := report.value]; }
      runs := runs[r := row.(status := doc.status, terminal := Some(doc))];
      if (doc.status.COMPLETED? || doc.status.PARTIAL?) && row.caseId in cases {
        cases := cases[row.caseId := ANALYZED];
      }
      outcome := Finalized(Tables(cases, blobs, assets, runs, results, artifacts, reports));
    }

    /** session.add in a loop, with the unique key (run, name) checked for each row. */
    static method AddRows(rows: set<(Id, string)>, r: Id, names: seq<string>)
      returns (all: set<(Id, string)>, clash: bool)
      ensures clash <==> !(Distinct(names) && RowsOf(r, names) !! rows)
      ensures !clash ==> all == rows + RowsOf(r, names)
    {
      all, clash := rows, false;
      for i := 0 to |names|
        invariant clash <==> !(Distinct(names[..i]) && RowsOf(r, names[..i]) !! rows)
        invariant !clash ==> all == rows + RowsOf(r, names[..i])
      {
        ghost var before, after := names[..i], names[..i + 1];
        assert after == before + [names[i]];
        assert RowsOf(r, after) == RowsOf(r, before) + {(r, names[i])} by {
          forall x ensures x in RowsOf(r, after) <==> x in RowsOf(r, before) || x == (r, names[i]) {
            if x in RowsOf(r, before) { var k :| 0 <= k < i && x == (r, before[k]); assert after[k] == before[k]; }
            if x == (r, names[i]) { assert after[i] == names[i]; }
          }
        }
        assert Distinct(after) <==> Distinct(before) && (r, names[i]) !in RowsOf(r, before) by {
          if Distinct(after) { forall k | 0 <= k < i ensures before[k] != names[i] { assert after[k] != after[i]; } }
        }
        if (r, names[i]) in all { clash := true; }
        all := all + {(r, names[i])};
      }
      assert names[..|names|] == names;
    }

    function Started(r: Id): string
      reads this
    {
      if r in startedAt then startedAt[r] else ""
    }

    /**
     * list_structural_runs: the runs of the evidence, newest first. Each comes from its terminal
     * document where there is one and as RUNNING otherwise; either way it is the stored status.
     */
    method ListStructuralRuns(c: Id, e: Id) returns (listed: seq<ListedRun>)
      requires Consistent(Rows())
      ensures NewestFirst(listed)
      ensures forall r :: r in runs && runs[r].caseId == c && runs[r].evidence == e ==>
                ListedRun(r, Started(r), runs[r].status) in listed
      ensures forall x :: x in listed ==>
                && x.id in runs && runs[x.id].caseId == c && runs[x.id].evidence == e
                && x == ListedRun(x.id, Started(x.id), runs[x.id].status)
    {
      listed := [];
      var todo := set r | r in runs && runs[r].caseId == c && runs[r].evidence == e;
      ghost var wanted := todo;
      while exists r :: r in todo
        invariant todo <= wanted && NewestFirst(listed)
        invariant forall x :: x in listed ==>
                    x.id in wanted - todo && x == ListedRun(x.id, Started(x.id), runs[x.id].status)
        invariant forall r :: r in wanted - todo ==> ListedRun(r, Started(r), runs[r].status) in listed
        decreases |todo|
      {
        var r :| r in todo;
        todo := todo - {r};
        assert RunRowOk(runs[r], assets);
        var row := ListedRun(r, Started(r), ListedStatus(runs[r]));
        InsertRowKeepsOrder(row, listed);
        listed := InsertRow(row, listed);
      }
    }

    /** The newest report of a case, as ORDER BY created_at DESC, report_id DESC LIMIT 1 picks it. */
    method LatestStructuralReport(c: Id) returns (row: Option<ReportRow>)
      ensures row.None? <==> forall r :: r in reports ==> reports[r].caseId != c
      ensures row.Some? ==> row.value.caseId == c && exists r :: r in reports && reports[r] == row.value
      ensures row.Some? ==> forall r :: r in reports && reports[r].caseId == c ==> !Newer(reports[r], row.value)
    {
      row := None;
      var todo := reports.Keys;
      while exists r :: r in todo
        invariant todo <= reports.Keys
        invariant row.None? <==> forall r :: r in reports && r !in todo ==> reports[r].caseId != c
        invariant row.Some? ==> row.value.caseId == c && exists r :: r in reports && reports[r] == row.value
        invariant row.Some? ==> forall r :: r in reports && r !in todo && reports[r].caseId == c ==>
                    !Newer(reports[r], row.value)
        decreases |todo|
      {
        var r :| r in todo;
        todo := todo - {r};
        if reports[r].caseId == c && (row.None? || Newer(reports[r], row.value)) {
          if row.Some? {
            forall q | q in reports && q !in todo && reports[q].caseId == c ensures !Newer(reports[q], reports[r]) {
              NewerIsTransitive(reports[q], reports[r], row.value);
            }
          } else {
            NotLess(reports[r].createdAt);
          }
          row := Some(reports[r]);
        }
      }
    }
  }

  lemma NewerIsTransitive(a: ReportRow, b: ReportRow, c: ReportRow)
    requires Newer(b, c)
    ensures Newer(a, b) ==> Newer(a, c)
    ensures !Newer(b, b)
  {
    NotLess(b.createdAt);
    if Newer(a, b) && LexLess(c.createdAt, b.createdAt) && LexLess(b.createdAt, a.createdAt) {
      LexTransitive(c.createdAt, b.createdAt, a.createdAt);
    }
  }

  /** The row the query picks is the latest in time, not only in text. */
  lemma LatestIsLatest(row: ReportRow, other: ReportRow, t: Time, u: Time)
    requires Valid(t) && Valid(u) && row.createdAt == IsoFormat(t) && other.createdAt == IsoFormat(u)
    requires !Newer(other, row)
    ensures !Before(t, u)
    ensures t == u ==> other.reportId <= row.reportId
  {
    TextOrderIsTimeOrder(t, u);
  }
}
