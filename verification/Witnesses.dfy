/** Runs of the whole system that end where the program's description says they should not. */
module Witnesses {
  import opened Prelude
  import opened MediaTypes
  import opened Tables
  import opened IntakeSystem

  ghost predicate Reaches(cfg: Config, events: seq<Event>, states: seq<State>, s: State) {
    Behavior(cfg, events, states) && states[|events|] == s
  }

  ghost predicate Reachable(cfg: Config, s: State) {
    exists events, states :: Reaches(cfg, events, states, s)
  }

  lemma ReachableStep(cfg: Config, s: State, e: Event, t: State)
    requires Reachable(cfg, s) && Next(cfg, s, e, t)
    ensures Reachable(cfg, t)
  {
    var events, states :| Reaches(cfg, events, states, s);
    var longer, more := events + [e], states + [t];
    forall i | 0 <= i < |longer| ensures StepAt(cfg, longer, more, i) {
      if i < |events| { assert StepAt(cfg, events, states, i); }
    }
    assert Reaches(cfg, longer, more, t);
  }

  lemma InitReachable(cfg: Config)
    ensures Reachable(cfg, INIT)
  {
    var events: seq<Event> := [];
    assert Reaches(cfg, events, [INIT], INIT);
  }

  /** A deployment with one new case, and two different files that fit it. */
  ghost predicate Setting(cfg: Config, first: Bytes, second: Bytes, mime: MediaType) {
    && first != second && mime in cfg.allowed
    && Fits(cfg, first, mime) && Fits(cfg, second, mime)
  }

  predicate Fits(cfg: Config, content: Bytes, mime: MediaType) {
    && 0 < |content| <= cfg.maxUpload && DetectMediaType(Take(content, SIGNATURE_BYTES)) == Some(mime)
    && mime in cfg.allowed
  }

  lemma JpegSetting(cfg: Config) returns (first: Bytes, second: Bytes)
    requires cfg.maxUpload >= 4 && ImageJpeg in cfg.allowed
    ensures Setting(cfg, first, second, ImageJpeg)
  {
    first, second := [0xff, 0xd8, 0xff, 0], [0xff, 0xd8, 0xff, 1];
    assert first[3] != second[3];
    assert Take(first, SIGNATURE_BYTES) == first && Take(second, SIGNATURE_BYTES) == second;
  }

  // ---------------------------------------------------------------- uploads

  lemma OneCase(cfg: Config) returns (s: State)
    ensures Reachable(cfg, s) && s == INIT.(db := EMPTY.(cases := map[0 := CREATED]))
  {
    InitReachable(cfg);
    s := INIT.(db := EMPTY.(cases := map[0 := CREATED]));
    assert EMPTY.cases[0 := CREATED] == map[0 := CREATED];
    ReachableStep(cfg, INIT, OpenCase(0), s);
  }

  /** The name of a new request: nothing in the state mentions it. */
  predicate Unused(s: State, r: Id) {
    r !in s.ingests && r !in s.files && r !in s.staged
  }

  lemma StagingReachable(cfg: Config, s: State, r: Id, c: Id, content: Bytes) returns (t: State)
    requires Reachable(cfg, s) && c in s.db.cases && Unused(s, r) && 0 < |content| <= cfg.maxUpload
    ensures Reachable(cfg, t)
    ensures t == s.(ingests := s.ingests[r := Ingest(c, Staging(content))], files := s.files[r := content],
                    staged := s.staged + {r})
  {
    var begun := s.(ingests := s.ingests[r := Ingest(c, Staging([]))], files := s.files[r := []],
                    staged := s.staged + {r});
    ReachableStep(cfg, s, OfIngest(r, Begin(c)), begun);
    assert [] + content == content;
    t := begun.(ingests := Goto(begun, r, Staging(content)), files := begun.files[r := content]);
    ReachableStep(cfg, begun, OfIngest(r, Chunk(content)), t);
  }

  lemma SealedReachable(cfg: Config, s: State, r: Id, c: Id, content: Bytes, mime: MediaType) returns (t: State)
    requires Reachable(cfg, s) && c in s.db.cases && Unused(s, r) && Fits(cfg, content, mime)
    ensures Reachable(cfg, t)
    ensures t == s.(ingests := s.ingests[r := Ingest(c, Sealed(MeasuredAs(content, mime)))],
                    files := s.files[r := content],
                    staged := s.staged + {r})
  {
    var staged := StagingReachable(cfg, s, r, c, content);
    t := staged.(ingests := Goto(staged, r, Sealed(MeasuredAs(content, mime))));
    ReachableStep(cfg, staged, OfIngest(r, EndOfStream), t);
  }

  lemma UnlinkedReachable(cfg: Config, s: State, r: Id, m: Measured, created: bool) returns (t: State)
    requires Reachable(cfg, s) && r in s.ingests && s.ingests[r].pc == Unlinking(Stored(m, created))
    ensures Reachable(cfg, t)
    ensures t == s.(ingests := Goto(s, r, Reading(m, created)), staged := s.staged - {r})
  {
    t := s.(ingests := Goto(s, r, Reading(m, created)), staged := s.staged - {r});
    ReachableStep(cfg, s, OfIngest(r, Unlink), t);
  }

  /** The state after an undisturbed upload that is about to record its metadata. */
  function Uploaded(s: State, r: Id, c: Id, content: Bytes, mime: MediaType): State {
    var h := Sha256(content);
    s.(ingests := s.ingests[r := Ingest(c, Reading(MeasuredAs(content, mime), h !in s.objects))],
       files := s.files[r := content],
       objects := if h in s.objects then s.objects else s.objects[h := r])
  }

  lemma LinkedReachable(cfg: Config, s: State, r: Id, m: Measured) returns (t: State)
    requires Reachable(cfg, s) && r in s.ingests && s.ingests[r].pc == Sealed(m)
    requires m.sha256 in s.objects ==> s.objects[m.sha256] != r && Matches(ObjectBytes(s, m.sha256), m)
    ensures Reachable(cfg, t)
    ensures t == s.(ingests := Goto(s, r, Unlinking(Stored(m, m.sha256 !in s.objects))),
                    objects := if m.sha256 in s.objects then s.objects else s.objects[m.sha256 := r])
  {
    if m.sha256 in s.objects {
      var found := s.(ingests := Goto(s, r, ExistingFound(m)));
      ReachableStep(cfg, s, OfIngest(r, Link), found);
      t := found.(ingests := Goto(found, r, Unlinking(Stored(m, false))));
      ReachableStep(cfg, found, OfIngest(r, VerifyExisting), t);
    } else {
      t := s.(ingests := Goto(s, r, Unlinking(Stored(m, true))), objects := s.objects[m.sha256 := r]);
      ReachableStep(cfg, s, OfIngest(r, Link), t);
    }
  }

  lemma UploadReachable(cfg: Config, s: State, r: Id, c: Id, content: Bytes, mime: MediaType)
    requires Reachable(cfg, s) && c in s.db.cases && Unused(s, r) && Fits(cfg, content, mime)
    requires var h := Sha256(content);
      h in s.objects ==> s.objects[h] in s.files && s.files[s.objects[h]] == content
    ensures Reachable(cfg, Uploaded(s, r, c, content, mime))
  {
    var linked := PromotedReachable(cfg, s, r, c, content, mime);
    var created := Sha256(content) !in s.objects;
    var done := UnlinkedReachable(cfg, linked, r, MeasuredAs(content, mime), created);
    assert s.staged + {r} - {r} == s.staged;
    assert done.ingests == s.ingests[r := Ingest(c, Reading(MeasuredAs(content, mime), created))];
  }

  lemma PromotedReachable(cfg: Config, s: State, r: Id, c: Id, content: Bytes, mime: MediaType) returns (t: State)
    requires Reachable(cfg, s) && c in s.db.cases && Unused(s, r) && Fits(cfg, content, mime)
    requires var h := Sha256(content);
      h in s.objects ==> s.objects[h] in s.files && s.files[s.objects[h]] == content
    ensures Reachable(cfg, t)
    ensures var h := Sha256(content);
      t == s.(ingests := s.ingests[r := Ingest(c, Unlinking(Stored(MeasuredAs(content, mime), h !in s.objects)))],
              files := s.files[r := content], staged := s.staged + {r},
              objects := if h in s.objects then s.objects else s.objects[h := r])
  {
    var m := MeasuredAs(content, mime);
    var sealed := SealedReachable(cfg, s, r, c, content, mime);
    SealedMatches(s, sealed, r, content, mime);
    t := LinkedReachable(cfg, sealed, r, m);
    assert t.ingests == s.ingests[r := Ingest(c, Unlinking(Stored(m, m.sha256 !in s.objects)))];
  }

  /** Whoever made the object, it is the content. */
  lemma SealedMatches(s: State, t: State, r: Id, content: Bytes, mime: MediaType)
    requires t.objects == s.objects && t.files == s.files[r := content] && r !in s.files
    requires var h := Sha256(content);
      h in s.objects ==> s.objects[h] in s.files && s.files[s.objects[h]] == content
    ensures var m := MeasuredAs(content, mime);
      m.sha256 in t.objects ==> t.objects[m.sha256] != r && Matches(ObjectBytes(t, m.sha256), m)
  {
  }

  // ---------------------------------------------------------------- recording and undoing

  /** The tables of one case with one association. */
  function OneRow(c: Id, status: CaseStatus, e: Id, m: Measured): Tables {
    EMPTY.(cases := map[c := status], blobs := map[m.sha256 := m], assets := map[e := AssetRow(c, m.sha256)])
  }

  lemma FirstCommit(flush: Flush, r: Id, c: Id, m: Measured)
    ensures RecordCommit(flush, EMPTY.(cases := map[c := CREATED]), r, c, m, Seen(CREATED, false)) ==
            Some(OneRow(c, SEALED, r, m))
  {
    var t := EMPTY.(cases := map[c := CREATED]);
    assert t.blobs[m.sha256 := m] == map[m.sha256 := m];
    assert t.assets[r := AssetRow(c, m.sha256)] == map[r := AssetRow(c, m.sha256)];
    assert t.cases[c := SEALED] == map[c := SEALED];
  }

  /** A first upload into a new case is recorded and seals the case. */
  lemma RecordFirst(cfg: Config, s: State, r: Id, c: Id, m: Measured) returns (t: State)
    requires Reachable(cfg, s) && r in s.ingests && s.ingests[r] == Ingest(c, Reading(m, true))
    requires s.db == EMPTY.(cases := map[c := CREATED])
    ensures Reachable(cfg, t)
    ensures t == s.(ingests := Goto(s, r, Checking(m, true, r, false)), minted := s.minted[r := AssetRow(c, m.sha256)],
                    db := OneRow(c, SEALED, r, m))
  {
    var looked := s.(ingests := Goto(s, r, Committing(m, true, Seen(CREATED, false))));
    assert RecordRead(s.db, c, m) == Insert(Seen(CREATED, false));
    ReachableStep(cfg, s, OfIngest(r, ReadRecord), looked);
    t := s.(ingests := Goto(s, r, Checking(m, true, r, false)), minted := s.minted[r := AssetRow(c, m.sha256)],
            db := OneRow(c, SEALED, r, m));
    FirstCommit(cfg.flush, r, c, m);
    ReachableStep(cfg, looked, OfIngest(r, CommitRecord), t);
  }

  /** A second upload reads the sealed case. */
  lemma LookWhileSealed(cfg: Config, s: State, r: Id, c: Id, m: Measured) returns (t: State)
    requires Reachable(cfg, s) && r in s.ingests && s.ingests[r] == Ingest(c, Reading(m, true))
    requires c in s.db.cases && s.db.cases[c] == SEALED && m.sha256 !in s.db.blobs
    ensures Reachable(cfg, t)
    ensures t == s.(ingests := Goto(s, r, Committing(m, true, Seen(SEALED, false))))
  {
    assert RecordRead(s.db, c, m) == Insert(Seen(SEALED, false));
    t := s.(ingests := Goto(s, r, Committing(m, true, Seen(SEALED, false))));
    ReachableStep(cfg, s, OfIngest(r, ReadRecord), t);
  }

  /** The final check of an upload cannot look at the object, and the compensation reads its row. */
  lemma CheckFails(cfg: Config, s: State, r: Id, c: Id, m: Measured, created: bool, e: Id, reused: bool)
    returns (t: State)
    requires Reachable(cfg, s) && r in s.ingests && s.ingests[r] == Ingest(c, Checking(m, created, e, reused))
    requires e in s.db.assets && s.db.assets[e].caseId == c
    ensures Reachable(cfg, t)
    ensures t == s.(ingests := Goto(s, r, Deleting(m, created, e, reused, Some(c))), misread := true)
  {
    var failed := s.(ingests := Goto(s, r, Undoing(m, created, e, reused)), misread := true);
    ReachableStep(cfg, s, OfIngest(r, CheckFault), failed);
    t := s.(ingests := Goto(s, r, Deleting(m, created, e, reused, Some(c))), misread := true);
    ReachableStep(cfg, failed, OfIngest(r, ReadForUndo), t);
  }

  lemma CompensatedAway(c: Id, e: Id, m: Measured)
    ensures Compensate(OneRow(c, SEALED, e, m), e, m.sha256, Some(c)) == Some(EMPTY.(cases := map[c := CREATED]))
  {
    var t := OneRow(c, SEALED, e, m);
    assert t.assets - {e} == map[] && t.blobs - {m.sha256} == map[];
    assert Referenced(map[]) == {};
    assert map[c := SEALED][c := CREATED] == map[c := CREATED];
  }

  /** The only association of a case is compensated away, and the case is unsealed. */
  lemma UndoOnly(cfg: Config, s: State, r: Id, c: Id, m: Measured, created: bool, e: Id, reused: bool)
    returns (t: State)
    requires Reachable(cfg, s) && r in s.ingests && s.ingests[r] == Ingest(c, Deleting(m, created, e, reused, Some(c)))
    requires s.db == OneRow(c, SEALED, e, m)
    ensures Reachable(cfg, t)
    ensures t == s.(ingests := Goto(s, r, Inconsistent(m, created, e, reused)),
                    db := EMPTY.(cases := map[c := CREATED]))
  {
    CompensatedAway(c, e, m);
    t := s.(ingests := Goto(s, r, Inconsistent(m, created, e, reused)), db := EMPTY.(cases := map[c := CREATED]));
    ReachableStep(cfg, s, OfIngest(r, CommitUndo), t);
  }

  // ---------------------------------------------------------------- the stale seal

  /** The second upload commits on its stale view. */
  lemma StaleCommit(cfg: Config, s: State, r: Id, c: Id, m: Measured) returns (t: State)
    requires Reachable(cfg, s) && cfg.flush.ChangedColumns? && s.db == EMPTY.(cases := map[c := CREATED])
    requires r in s.ingests && s.ingests[r] == Ingest(c, Committing(m, true, Seen(SEALED, false)))
    ensures Reachable(cfg, t) && t.tampered == s.tampered && !StatusAgrees(t.db)
  {
    var db := RecordCommit(cfg.flush, s.db, r, c, m, Seen(SEALED, false)).value;
    t := s.(ingests := Goto(s, r, Checking(m, true, r, false)), minted := s.minted[r := AssetRow(c, m.sha256)],
            db := db);
    ReachableStep(cfg, s, OfIngest(r, CommitRecord), t);
    assert t.db.cases[c] == CREATED && t.db.assets[r].caseId == c;
    assert HasEvidence(t.db.assets, c);
  }

  /**
   * Two uploads into one case are enough, with nothing deleted from outside: some reachable case
   * reads CREATED with evidence in it.
   */
  lemma StaleSealIsReachable(cfg: Config)
    requires cfg.flush.ChangedColumns? && cfg.maxUpload >= 4 && ImageJpeg in cfg.allowed
    ensures exists s :: Reachable(cfg, s) && !s.tampered && !StatusAgrees(s.db)
  {
    var first, second := JpegSetting(cfg);
    var m, n := MeasuredAs(first, ImageJpeg), MeasuredAs(second, ImageJpeg);
    var s := OneCase(cfg);
    UploadReachable(cfg, s, 1, 0, first, ImageJpeg);
    var recorded := RecordFirst(cfg, Uploaded(s, 1, 0, first, ImageJpeg), 1, 0, m);
    UploadReachable(cfg, recorded, 2, 0, second, ImageJpeg);
    var looked := LookWhileSealed(cfg, Uploaded(recorded, 2, 0, second, ImageJpeg), 2, 0, n);
    var failed := CheckFails(cfg, looked, 1, 0, m, true, 1, false);
    var emptied := UndoOnly(cfg, failed, 1, 0, m, true, 1, false);
    var stale := StaleCommit(cfg, emptied, 2, 0, n);
  }

  // ---------------------------------------------------------------- an accepted association is destroyed

  lemma AcceptFirst(cfg: Config, s: State, r: Id, c: Id, m: Measured) returns (t: State)
    requires Reachable(cfg, s) && r in s.ingests && s.ingests[r] == Ingest(c, Checking(m, true, r, false))
    requires ObjectBytes(s, m.sha256).Some? && |ObjectBytes(s, m.sha256).value| == m.byteLength
    ensures Reachable(cfg, t) && t == s.(ingests := Goto(s, r, Accepted(m, true, r, false)))
  {
    t := s.(ingests := Goto(s, r, Accepted(m, true, r, false)));
    ReachableStep(cfg, s, OfIngest(r, CheckObject), t);
  }

  /** A second upload of the same content reuses the first one's association. */
  lemma ReuseFirst(cfg: Config, s: State, r: Id, c: Id, m: Measured, e: Id) returns (t: State)
    requires Reachable(cfg, s) && r in s.ingests && s.ingests[r] == Ingest(c, Reading(m, false))
    requires s.db == OneRow(c, SEALED, e, m)
    ensures Reachable(cfg, t) && t == s.(ingests := Goto(s, r, Checking(m, false, e, true)))
  {
    assert s.db.assets[e] == AssetRow(c, m.sha256);
    assert FindCaseBlob(s.db, c, m.sha256) == Some(e);
    t := s.(ingests := Goto(s, r, Checking(m, false, e, true)));
    ReachableStep(cfg, s, OfIngest(r, ReadRecord), t);
  }

  /**
   * One failed look is enough, with nothing deleted from outside: an upload was accepted, and its
   * association is gone, because a duplicate of it could not inspect the object.
   */
  lemma FailedLookDestroysAccepted(cfg: Config)
    requires cfg.maxUpload >= 4 && ImageJpeg in cfg.allowed
    ensures exists s, r :: && Reachable(cfg, s) && !s.tampered && r in s.ingests && s.ingests[r].pc.Accepted?
                           && s.ingests[r].pc.evidence !in s.db.assets
  {
    var content, other := JpegSetting(cfg);
    var m := MeasuredAs(content, ImageJpeg);
    var s := OneCase(cfg);
    UploadReachable(cfg, s, 1, 0, content, ImageJpeg);
    var recorded := RecordFirst(cfg, Uploaded(s, 1, 0, content, ImageJpeg), 1, 0, m);
    var accepted := AcceptFirst(cfg, recorded, 1, 0, m);
    UploadReachable(cfg, accepted, 2, 0, content, ImageJpeg);
    var reused := ReuseFirst(cfg, Uploaded(accepted, 2, 0, content, ImageJpeg), 2, 0, m, 1);
    var failed := CheckFails(cfg, reused, 2, 0, m, false, 1, true);
    var gone := UndoOnly(cfg, failed, 2, 0, m, false, 1, true);
    assert gone.ingests[1].pc == Accepted(m, true, 1, false);
  }

  /** In this state the next step of upload `r` accepts it, with a new association that is not in the tables. */
  ghost predicate AboutToAcceptNothing(cfg: Config, s: State, t: State, r: Id) {
    && Reachable(cfg, s) && !s.tampered && r !in s.db.assets && Next(cfg, s, OfIngest(r, CheckObject), t)
    && r in t.ingests && t.ingests[r].pc.Accepted? && t.ingests[r].pc.evidence == r && !t.ingests[r].pc.reused
    && r !in t.db.assets
  }

  /**
   * It can be gone before the answer: between an upload's commit and its final check a duplicate
   * reuses the association, fails to inspect the object and compensates. The upload is accepted all the same.
   */
  lemma AcceptedWithoutAssociation(cfg: Config)
    requires cfg.maxUpload >= 4 && ImageJpeg in cfg.allowed
    ensures exists s, t, r :: AboutToAcceptNothing(cfg, s, t, r)
  {
    var content, other := JpegSetting(cfg);
    var m := MeasuredAs(content, ImageJpeg);
    var s := OneCase(cfg);
    UploadReachable(cfg, s, 1, 0, content, ImageJpeg);
    var recorded := RecordFirst(cfg, Uploaded(s, 1, 0, content, ImageJpeg), 1, 0, m);
    UploadReachable(cfg, recorded, 2, 0, content, ImageJpeg);
    var reused := ReuseFirst(cfg, Uploaded(recorded, 2, 0, content, ImageJpeg), 2, 0, m, 1);
    var failed := CheckFails(cfg, reused, 2, 0, m, false, 1, true);
    var gone := UndoOnly(cfg, failed, 2, 0, m, false, 1, true);
    assert gone.ingests[1] == Ingest(0, Checking(m, true, 1, false));
    var accepted := AcceptFirst(cfg, gone, 1, 0, m);
    assert Next(cfg, gone, OfIngest(1, CheckObject), accepted);
    assert AboutToAcceptNothing(cfg, gone, accepted, 1);
  }

  // ---------------------------------------------------------------- runs

  lemma RunReachable(cfg: Config, s: State, q: Id, c: Id, e: Id, m: Measured) returns (t: State)
    requires Reachable(cfg, s) && s.db == OneRow(c, SEALED, e, m) && q !in s.starts
    ensures Reachable(cfg, t)
    ensures t == s.(starts := s.starts[q := Start(c, e, Verifying(m.sha256))],
                    db := s.db.(runs := map[q := RunRow(c, e, ANALYSIS_PROFILE, RUNNING, None)]))
  {
    var begun := s.(starts := s.starts[q := Start(c, e, Creating(m.sha256))]);
    ReachableStep(cfg, s, OfStart(q, Open(c, e)), begun);
    var row := RunRow(c, e, ANALYSIS_PROFILE, RUNNING, None);
    t := begun.(starts := StartGoto(begun, q, Verifying(m.sha256)), db := s.db.(runs := map[q := row]));
    assert s.db.runs[q := row] == map[q := row];
    ReachableStep(cfg, begun, OfStart(q, InsertRun), t);
  }

  lemma RecordedSetting(cfg: Config) returns (s: State, m: Measured)
    requires cfg.maxUpload >= 4 && ImageJpeg in cfg.allowed
    ensures Reachable(cfg, s) && !s.tampered && s.db == OneRow(0, SEALED, 1, m) && s.starts == map[]
    ensures 1 in s.ingests && s.ingests[1] == Ingest(0, Checking(m, true, 1, false))
  {
    var content, other := JpegSetting(cfg);
    m := MeasuredAs(content, ImageJpeg);
    var begun := OneCase(cfg);
    UploadReachable(cfg, begun, 1, 0, content, ImageJpeg);
    s := RecordFirst(cfg, Uploaded(begun, 1, 0, content, ImageJpeg), 1, 0, m);
  }

  lemma UndoBlocked(cfg: Config, s: State, r: Id, c: Id, m: Measured, q: Id) returns (t: State)
    requires Reachable(cfg, s) && r in s.ingests && s.ingests[r] == Ingest(c, Deleting(m, true, r, false, Some(c)))
    requires r in s.db.assets && q in s.db.runs && s.db.runs[q].evidence == r
    ensures Reachable(cfg, t) && t == s.(ingests := Goto(s, r, Inconsistent(m, true, r, false)))
  {
    assert Restricted(s.db, r);
    t := s.(ingests := Goto(s, r, Inconsistent(m, true, r, false)));
    ReachableStep(cfg, s, OfIngest(r, CommitUndo), t);
  }

  /**
   * A compensation can be blocked: an upload was answered with a consistency failure, and its
   * association is still there, because a run came to refer to it in between.
   */
  lemma BlockedCompensationIsReachable(cfg: Config)
    requires cfg.maxUpload >= 4 && ImageJpeg in cfg.allowed
    ensures exists s, r :: && Reachable(cfg, s) && !s.tampered && r in s.ingests && s.ingests[r].pc.Inconsistent?
                           && s.ingests[r].pc.evidence == r && r in s.db.assets
  {
    var s, m := RecordedSetting(cfg);
    var running := RunReachable(cfg, s, 2, 0, 1, m);
    var failed := CheckFails(cfg, running, 1, 0, m, true, 1, false);
    var blocked := UndoBlocked(cfg, failed, 1, 0, m, 2);
  }

  /**
   * The clock can strand a run: nothing else went wrong, the start is over, the run is RUNNING,
   * and no other start of its evidence can be created.
   */
  lemma ClockStrandsRun(cfg: Config)
    requires cfg.maxUpload >= 4 && ImageJpeg in cfg.allowed
    ensures exists s, q :: && Reachable(cfg, s) && Calm(s) && q in s.starts && s.starts[q].pc == Ended(OutOfTime)
                           && q in s.db.runs && s.db.runs[q].status.RUNNING?
                           && forall p ::
                                !RunAllowed(s.db, p, s.starts[q].caseId, s.starts[q].evidence, ANALYSIS_PROFILE)
  {
    var content, other := JpegSetting(cfg);
    var m := MeasuredAs(content, ImageJpeg);
    var begun := OneCase(cfg);
    UploadReachable(cfg, begun, 1, 0, content, ImageJpeg);
    var s := RecordFirst(cfg, Uploaded(begun, 1, 0, content, ImageJpeg), 1, 0, m);
    var running := RunReachable(cfg, s, 2, 0, 1, m);
    var stranded := running.(starts := StartGoto(running, 2, Ended(OutOfTime)));
    ReachableStep(cfg, running, OfStart(2, ClockFault), stranded);
    assert Active(stranded.db.runs[2], 1, ANALYSIS_PROFILE);
  }
}
