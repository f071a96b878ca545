/** What holds of evidence intake over every run, under every interleaving. */
module IntakeTheorems {
  import opened Prelude
  import opened MediaTypes
  import opened Tables
  import opened IntakeSystem
  import opened IntakeInvariant

  // ---------------------------------------------------------------- one step, then any number

  lemma {:induction false} AlwaysOnward(cfg: Config, events: seq<Event>, states: seq<State>, i: nat, j: nat)
    requires Behavior(cfg, events, states) && i <= j < |states|
    ensures Onward(states[i], states[j])
    decreases j - i
  {
    if i < j {
      AlwaysOnward(cfg, events, states, i, j - 1);
      StepOnward(cfg, events, states, j - 1);
      OnwardChains(states[i], states[j - 1], states[j]);
    }
  }

  lemma OnwardChains(s: State, t: State, u: State)
    requires Onward(s, t) && Onward(t, u)
    ensures Onward(s, u)
  {
    forall e ensures MintedKept(s, u, e) { assert MintedKept(s, t, e) && MintedKept(t, u, e); }
    forall h ensures ObjectKept(s, u, h) { assert ObjectKept(s, t, h) && ObjectKept(t, u, h); }
    forall r ensures IngestKept(s, u, r) { assert IngestKept(s, t, r) && IngestKept(t, u, r); }
  }

  // ---------------------------------------------------------------- what the two flags record

  /** The steps in which a stored object cannot be inspected or read. */
  predicate LookFails(e: Event) {
    || (e.OfIngest? && (e.ingest.ExistingUnreadable? || e.ingest.CheckFault?))
    || (e.OfStart? && e.start.EvidenceUnreadable?)
  }

  lemma IngestFlags(cfg: Config, s: State, t: State, r: Id, step: IngestStep)
    requires IngestNext(cfg, s, t, r, step)
    ensures t.tampered == s.tampered && t.misread == (s.misread || step.ExistingUnreadable? || step.CheckFault?)
  {
  }

  lemma StartFlags(s: State, t: State, r: Id, step: StartStep)
    requires StartNext(s, t, r, step)
    ensures t.tampered == s.tampered && t.misread == (s.misread || step.EvidenceUnreadable?)
  {
  }

  lemma FlagsStep(cfg: Config, s: State, t: State, e: Event)
    requires Next(cfg, s, e, t)
    ensures t.tampered == (s.tampered || e.OutsideDelete?) && t.misread == (s.misread || LookFails(e))
  {
    match e {
      case OfIngest(r, step) => IngestFlags(cfg, s, t, r, step);
      case OfStart(r, step) => StartFlags(s, t, r, step);
      case _ =>
    }
  }

  /**
   * `tampered` records exactly that some object was deleted from outside, `misread` exactly that
   * some look at a stored object failed.
   */
  lemma {:induction false} TroubleExactly(cfg: Config, events: seq<Event>, states: seq<State>, i: nat)
    requires Behavior(cfg, events, states) && i < |states|
    ensures states[i].tampered <==> exists k :: 0 <= k < i && events[k].OutsideDelete?
    ensures states[i].misread <==> exists k :: 0 <= k < i && LookFails(events[k])
  {
    if i > 0 {
      TroubleExactly(cfg, events, states, i - 1);
      assert StepAt(cfg, events, states, i - 1);
      FlagsStep(cfg, states[i - 1], states[i], events[i - 1]);
      if events[i - 1].OutsideDelete? { assert exists k :: 0 <= k < i && events[k].OutsideDelete?; }
      if LookFails(events[i - 1]) { assert exists k :: 0 <= k < i && LookFails(events[k]); }
    }
  }

  // ---------------------------------------------------------------- rows

  /**
   * In every reachable state the evidence rows agree: a blob row exists exactly when an asset
   * references it, (case, hash) pairs are unique, and every asset's case exists.
   */
  lemma RowsAgree(cfg: Config, events: seq<Event>, states: seq<State>, i: nat)
    requires Behavior(cfg, events, states) && i < |states|
    ensures var t := states[i].db;
      && (forall h :: h in t.blobs <==> exists e :: e in t.assets && t.assets[e].sha256 == h)
      && (forall d, e :: d in t.assets && e in t.assets && t.assets[d] == t.assets[e] ==> d == e)
      && (forall e :: e in t.assets ==> t.assets[e].caseId in t.cases)
  {
    EveryStateOk(cfg, events, states, i);
    var t := states[i].db;
    forall h ensures h in t.blobs <==> exists e :: e in t.assets && t.assets[e].sha256 == h {
      assert h in t.blobs <==> h in Referenced(t.assets);
    }
  }

  // ---------------------------------------------------------------- compensations

  /** A compensation of association `a` that goes through. */
  ghost predicate Undoes(s: State, e: Event, a: Id) {
    && e.OfIngest? && e.ingest.CommitUndo? && e.r in s.ingests && s.ingests[e.r].pc.Deleting?
    && s.ingests[e.r].pc.evidence == a && a in s.db.assets && !Restricted(s.db, a)
  }

  ghost predicate NeverUndone(events: seq<Event>, states: seq<State>, i: nat, j: nat, a: Id)
    requires j <= |events| && j <= |states|
  {
    forall k {:trigger Undoes(states[k], events[k], a)} :: i <= k < j ==> !Undoes(states[k], events[k], a)
  }

  lemma IngestAssociations(cfg: Config, s: State, t: State, r: Id, step: IngestStep, a: Id)
    requires Inv(cfg, s) && IngestNext(cfg, s, t, r, step) && a in s.db.assets
    ensures a in t.db.assets <==> !Undoes(s, OfIngest(r, step), a)
    ensures a in t.db.assets ==> t.db.assets[a] == s.db.assets[a]
  {
    if !step.CommitRecord? && !step.CommitUndo? { UploadStepKeeps(cfg, s, t, r, step); }
  }

  lemma StartAssociations(s: State, t: State, r: Id, step: StartStep)
    requires StartNext(s, t, r, step)
    ensures t.db.assets == s.db.assets && t.minted == s.minted && t.ingests == s.ingests && t.objects == s.objects
  {
  }

  /** An association goes exactly when a compensation of it goes through. */
  lemma AssociationStep(cfg: Config, s: State, t: State, e: Event, a: Id)
    requires Inv(cfg, s) && Next(cfg, s, e, t) && a in s.db.assets
    ensures a in t.db.assets <==> !Undoes(s, e, a)
    ensures a in t.db.assets ==> t.db.assets[a] == s.db.assets[a]
  {
    match e {
      case OfIngest(r, step) => IngestAssociations(cfg, s, t, r, step, a);
      case OfStart(r, step) => StartAssociations(s, t, r, step);
      case _ =>
    }
  }

  /** The step that commits association `a`. */
  ghost predicate Commits(s: State, e: Event, a: Id) {
    e == OfIngest(a, CommitRecord) && a in s.ingests && s.ingests[a].pc.Committing? && Admitted(s, a)
  }

  lemma IngestCommits(cfg: Config, s: State, t: State, r: Id, step: IngestStep, a: Id)
    requires Inv(cfg, s) && IngestNext(cfg, s, t, r, step)
    ensures a in t.minted && a !in s.minted ==>
              && Commits(s, OfIngest(r, step), a) && a in t.db.assets
              && t.minted[a] == AssetRow(s.ingests[a].caseId, s.ingests[a].pc.m.sha256)
    ensures a in t.db.assets && a !in s.db.assets ==> a !in s.minted
  {
    if step.CommitRecord? { assert IngestOk(cfg, s, r); }
  }

  /** A new association is committed by the request it is named after, and only once. */
  lemma CommitStep(cfg: Config, s: State, t: State, e: Event, a: Id)
    requires Inv(cfg, s) && Next(cfg, s, e, t)
    ensures a in t.minted && a !in s.minted ==>
              && Commits(s, e, a) && a in t.db.assets
              && t.minted[a] == AssetRow(s.ingests[a].caseId, s.ingests[a].pc.m.sha256)
    ensures a in t.db.assets && a !in s.db.assets ==> a !in s.minted
  {
    match e {
      case OfIngest(r, step) => IngestCommits(cfg, s, t, r, step, a);
      case OfStart(r, step) => StartAssociations(s, t, r, step);
      case _ =>
    }
  }

  /** The same two facts of the step that follows state `k` of a run. */
  lemma AssociationAt(cfg: Config, events: seq<Event>, states: seq<State>, k: nat, a: Id)
    requires Behavior(cfg, events, states) && k < |events|
    ensures a in states[k + 1].minted && a !in states[k].minted ==>
              && Commits(states[k], events[k], a) && a in states[k + 1].db.assets
              && states[k + 1].minted[a] == AssetRow(states[k].ingests[a].caseId, states[k].ingests[a].pc.m.sha256)
    ensures a in states[k].minted ==> a in states[k + 1].minted && states[k + 1].minted[a] == states[k].minted[a]
    ensures a in states[k].db.assets ==> (a in states[k + 1].db.assets <==> !Undoes(states[k], events[k], a))
    ensures a in states[k + 1].db.assets && a !in states[k].db.assets ==> a !in states[k].minted
    ensures a in states[k].db.assets ==> a in states[k].minted && states[k].minted[a] == states[k].db.assets[a]
  {
    EveryStateOk(cfg, events, states, k);
    assert StepAt(cfg, events, states, k) && AssetOk(states[k], a);
    CommitStep(cfg, states[k], states[k + 1], events[k], a);
    StepOnward(cfg, events, states, k);
    assert MintedKept(states[k], states[k + 1], a);
    if a in states[k].db.assets { AssociationStep(cfg, states[k], states[k + 1], events[k], a); }
  }

  /** What is compensated was committed before. */
  lemma UndoneWasMinted(cfg: Config, events: seq<Event>, states: seq<State>, k: nat, j: nat, a: Id)
    requires Behavior(cfg, events, states) && k <= j < |states| && k < |events| && Undoes(states[k], events[k], a)
    ensures a in states[k].minted && a in states[j].minted
  {
    EveryStateOk(cfg, events, states, k);
    AlwaysOnward(cfg, events, states, k, j);
    assert AssetOk(states[k], a) && MintedKept(states[k], states[j], a);
  }

  /**
   * A committed association is in the tables if and only if no compensation of it has gone
   * through since, whatever else failed or was deleted.
   */
  lemma {:induction false} CommittedStands(cfg: Config, events: seq<Event>, states: seq<State>, j: nat, a: Id)
    requires Behavior(cfg, events, states) && j < |states| && a in states[j].minted
    ensures a in states[j].db.assets <==> NeverUndone(events, states, 0, j, a)
    ensures a in states[j].db.assets ==> states[j].db.assets[a] == states[j].minted[a]
  {
    EveryStateOk(cfg, events, states, j);
    assert AssetOk(states[j], a);
    if j > 0 {
      AssociationAt(cfg, events, states, j - 1, a);
      if a in states[j - 1].minted {
        CommittedStands(cfg, events, states, j - 1, a);
      } else {
        forall k | 0 <= k < j ensures !Undoes(states[k], events[k], a) {
          if Undoes(states[k], events[k], a) { UndoneWasMinted(cfg, events, states, k, j - 1, a); }
        }
      }
    }
  }

  /** Between two states an association stays, unchanged, if and only if it is not compensated between them. */
  lemma AssociationsPersist(cfg: Config, events: seq<Event>, states: seq<State>, i: nat, j: nat, a: Id)
    requires Behavior(cfg, events, states) && i <= j < |states| && a in states[i].db.assets
    ensures a in states[j].db.assets <==> NeverUndone(events, states, i, j, a)
    ensures a in states[j].db.assets ==> states[j].db.assets[a] == states[i].db.assets[a]
  {
    EveryStateOk(cfg, events, states, i);
    AlwaysOnward(cfg, events, states, i, j);
    assert AssetOk(states[i], a) && MintedKept(states[i], states[j], a);
    CommittedStands(cfg, events, states, i, a);
    CommittedStands(cfg, events, states, j, a);
  }

  /** In a calm run nothing is compensated. */
  lemma CalmRunsUndoNothing(cfg: Config, events: seq<Event>, states: seq<State>, j: nat, a: Id)
    requires Behavior(cfg, events, states) && j < |states| && Calm(states[j])
    ensures NeverUndone(events, states, 0, j, a)
  {
    forall k | 0 <= k < j ensures !Undoes(states[k], events[k], a) {
      AlwaysOnward(cfg, events, states, k, j);
      EveryStateOk(cfg, events, states, k);
      var e := events[k];
      assert e.OfIngest? && e.r in states[k].ingests ==> IngestOk(cfg, states[k], e.r);
    }
  }

  // ---------------------------------------------------------------- the case status

  /** A commit that goes through on a SEALED status that a compensation has undone since. */
  ghost predicate StaleCommit(cfg: Config, s: State, e: Event) {
    && e.OfIngest? && e.ingest.CommitRecord? && e.r in s.ingests && s.ingests[e.r].pc.Committing? && Admitted(s, e.r)
    && StaleSeal(cfg.flush, s.db, s.ingests[e.r].caseId, s.ingests[e.r].pc.seen)
  }

  lemma SameRowsSameStatus(t: Tables, u: Tables)
    requires t.cases == u.cases && t.assets == u.assets
    ensures StatusAgrees(t) <==> StatusAgrees(u)
  {
  }

  lemma IngestStatusStep(cfg: Config, s: State, t: State, r: Id, step: IngestStep)
    requires Inv(cfg, s) && IngestNext(cfg, s, t, r, step) && StatusAgrees(s.db)
    ensures StatusAgrees(t.db) <==> !StaleCommit(cfg, s, OfIngest(r, step))
  {
    if step.CommitRecord? {
      var Ingest(c, pc) := s.ingests[r];
      if Admitted(s, r) { RecordStatusExact(cfg.flush, s.db, r, c, pc.m, pc.seen); }
    } else if step.CommitUndo? {
      var pc := s.ingests[r].pc;
      assert IngestOk(cfg, s, r);
      UndoArgs(cfg, s, r);
      if Compensate(s.db, pc.evidence, pc.m.sha256, pc.loadedCase).Some? {
        CompensateKeepsStatus(s.db, pc.evidence, pc.m.sha256, pc.loadedCase);
      }
    } else {
      UploadStepKeeps(cfg, s, t, r, step);
    }
  }

  lemma FinalizeStatusStep(s: State, t: State, r: Id)
    requires Consistent(s.db) && FinalizeRunStep(s, t, r) && StatusAgrees(s.db)
    ensures StatusAgrees(t.db)
  {
    var tx := FinalizeArgs(s, r);
    if FinalizeAttempt(s, r).Finalized? {
      assert RunRowOk(s.db.runs[r], s.db.assets);
      FinalizeKeepsStatus(s.db, r, tx.doc, tx.tests, tx.artifacts, tx.report);
    }
  }

  lemma StartStatusStep(s: State, t: State, r: Id, step: StartStep)
    requires Consistent(s.db) && StartNext(s, t, r, step) && StatusAgrees(s.db)
    ensures StatusAgrees(t.db)
  {
    if step.FinalizeRun? { FinalizeStatusStep(s, t, r); } else { SameRowsSameStatus(s.db, t.db); }
  }

  /** Once right, the case status goes wrong at a stale commit and at no other step. */
  lemma StatusStep(cfg: Config, s: State, t: State, e: Event)
    requires Inv(cfg, s) && Next(cfg, s, e, t) && StatusAgrees(s.db)
    ensures StatusAgrees(t.db) <==> !StaleCommit(cfg, s, e)
  {
    match e {
      case OfIngest(r, step) => IngestStatusStep(cfg, s, t, r, step);
      case OfStart(r, step) => StartStatusStep(s, t, r, step);
      case OutsideDelete(_) => SameRowsSameStatus(s.db, t.db);
      case OpenCase(c) => TransactionStatusExact(cfg.flush, s.db, NewCase(c));
    }
  }

  ghost predicate NoStaleCommit(cfg: Config, events: seq<Event>, states: seq<State>, i: nat)
    requires i <= |events| && i <= |states|
  {
    forall k :: 0 <= k < i ==> !StaleCommit(cfg, states[k], events[k])
  }

  /**
   * Over a whole run: up to a state every case reads CREATED exactly when it has no evidence, if
   * and only if no stale commit came before.
   */
  lemma {:induction false} StatusExactly(cfg: Config, events: seq<Event>, states: seq<State>, i: nat)
    requires Behavior(cfg, events, states) && i < |states|
    ensures (forall k :: 0 <= k <= i ==> StatusAgrees(states[k].db)) <==> NoStaleCommit(cfg, events, states, i)
  {
    if i > 0 {
      StatusExactly(cfg, events, states, i - 1);
      if NoStaleCommit(cfg, events, states, i - 1) {
        EveryStateOk(cfg, events, states, i - 1);
        assert StepAt(cfg, events, states, i - 1);
        StatusStep(cfg, states[i - 1], states[i], events[i - 1]);
      } else {
        assert !NoStaleCommit(cfg, events, states, i);
      }
    }
  }

  lemma NotStale(cfg: Config, s: State, e: Event)
    requires IngestsOk(cfg, s) && (cfg.flush.AssignedColumns? || Calm(s))
    ensures !StaleCommit(cfg, s, e)
  {
    assert e.OfIngest? && e.r in s.ingests ==> IngestOk(cfg, s, e.r);
  }

  /** Stale commits take changed-columns flushes and a compensation, which takes trouble. */
  lemma CalmRunsKeepStatus(cfg: Config, events: seq<Event>, states: seq<State>, i: nat)
    requires Behavior(cfg, events, states) && i < |states|
    requires cfg.flush.AssignedColumns? || Calm(states[i])
    ensures StatusAgrees(states[i].db)
  {
    forall k | 0 <= k < i ensures !StaleCommit(cfg, states[k], events[k]) {
      AlwaysOnward(cfg, events, states, k, i);
      EveryStateOk(cfg, events, states, k);
      NotStale(cfg, states[k], events[k]);
    }
    StatusExactly(cfg, events, states, i);
  }

  // ---------------------------------------------------------------- objects

  /** Whatever is visible under a content name is the whole content with that hash, in every state. */
  lemma ObjectsAreWhole(cfg: Config, events: seq<Event>, states: seq<State>, i: nat, h: Sha256)
    requires Behavior(cfg, events, states) && i < |states| && h in states[i].objects
    ensures ObjectBytes(states[i], h) == Some(h.of) && 0 < |h.of| <= cfg.maxUpload
  {
    EveryStateOk(cfg, events, states, i);
    assert ObjectOk(states[i], h) && IngestOk(cfg, states[i], states[i].objects[h]);
    IngestFacts(cfg, states[i], states[i].objects[h]);
  }

  /** Without outside deletion an object, once there, is there for good with the same bytes. */
  lemma ObjectsPersist(cfg: Config, events: seq<Event>, states: seq<State>, i: nat, j: nat, h: Sha256)
    requires Behavior(cfg, events, states) && i <= j < |states| && !states[j].tampered && h in states[i].objects
    ensures h in states[j].objects && ObjectBytes(states[j], h) == ObjectBytes(states[i], h) == Some(h.of)
  {
    AlwaysOnward(cfg, events, states, i, j);
    assert ObjectKept(states[i], states[j], h);
    ObjectsAreWhole(cfg, events, states, i, h);
    ObjectsAreWhole(cfg, events, states, j, h);
  }

  /** Every blob row has an object of the recorded hashes and size. */
  lemma BlobRowsHaveObjects(cfg: Config, events: seq<Event>, states: seq<State>, i: nat, h: Sha256)
    requires Behavior(cfg, events, states) && i < |states| && !states[i].tampered && h in states[i].db.blobs
    ensures Matches(ObjectBytes(states[i], h), states[i].db.blobs[h])
    ensures DetectMediaType(h.of).Some? && states[i].db.blobs[h] == MeasuredAs(h.of, DetectMediaType(h.of).value)
  {
    EveryStateOk(cfg, events, states, i);
    var s := states[i];
    assert h in Referenced(s.db.assets);
    var e :| e in s.db.assets && s.db.assets[e].sha256 == h;
    assert AssetOk(s, e) && BlobOk(cfg, s, h);
    MintedHasObject(cfg, s, e);
    ObjectsAreWhole(cfg, events, states, i, h);
    OnlyTheSignatureMatters(h.of);
  }

  /** Upload `r` got past promotion with content `h`. */
  ghost predicate Promoting(s: State, r: Id, h: Sha256) {
    r in s.ingests && CreatedOf(s.ingests[r].pc).Some? && MeasuredOf(s.ingests[r].pc).value.sha256 == h
  }

  /**
   * Exactly one upload of given content sees `content_created`: the one whose file the object
   * is. Every other upload that got past promotion was told the content existed.
   */
  lemma OneCreator(cfg: Config, events: seq<Event>, states: seq<State>, i: nat, h: Sha256)
    requires Behavior(cfg, events, states) && i < |states| && !states[i].tampered
    requires exists r :: Promoting(states[i], r, h)
    ensures h in states[i].objects && states[i].objects[h] in states[i].ingests
    ensures forall r :: Promoting(states[i], r, h) ==>
              (CreatedOf(states[i].ingests[r].pc).value <==> r == states[i].objects[h])
  {
    EveryStateOk(cfg, events, states, i);
    var s := states[i];
    var r :| Promoting(s, r, h);
    assert IngestOk(cfg, s, r);
    IngestFacts(cfg, s, r);
    assert ObjectOk(s, h);
    forall q | Promoting(s, q, h) ensures CreatedOf(s.ingests[q].pc).value <==> q == s.objects[h] {
      assert IngestOk(cfg, s, q);
      IngestFacts(cfg, s, q);
    }
  }

  /**
   * The blob-metadata mismatch never happens. While nothing is deleted from outside and every
   * look at an object works, neither does the object mismatch, and no request compensates.
   */
  lemma MismatchesUnreachable(cfg: Config, events: seq<Event>, states: seq<State>, i: nat, r: Id)
    requires Behavior(cfg, events, states) && i < |states| && r in states[i].ingests
    ensures states[i].ingests[r].pc.Unrecorded? ==> !states[i].ingests[r].pc.mismatch
    ensures Calm(states[i]) ==> !NeedsTrouble(states[i].ingests[r].pc)
  {
    EveryStateOk(cfg, events, states, i);
    assert IngestOk(cfg, states[i], r);
    IngestFacts(cfg, states[i], r);
  }

  /** A staging name is there exactly while put_stream runs, or when its removal itself failed. */
  lemma StagingIsCleaned(cfg: Config, events: seq<Event>, states: seq<State>, i: nat, r: Id)
    requires Behavior(cfg, events, states) && i < |states| && r in states[i].ingests
    ensures r in states[i].staged <==> HoldsStaging(states[i].ingests[r].pc)
  {
    EveryStateOk(cfg, events, states, i);
    assert IngestOk(cfg, states[i], r);
    IngestFacts(cfg, states[i], r);
  }

  // ---------------------------------------------------------------- answers to clients

  ghost predicate Answered(s: State, r: Id) {
    r in s.ingests && s.ingests[r].pc.Accepted?
  }

  /** An accepted answer is true: its association and blob row are there, and its object has the uploaded bytes. */
  ghost predicate Stands(s: State, r: Id) {
    && Answered(s, r)
    && var Ingest(c, pc) := s.ingests[r];
       && pc.evidence in s.db.assets && s.db.assets[pc.evidence] == AssetRow(c, pc.m.sha256)
       && pc.m.sha256 in s.db.blobs && s.db.blobs[pc.m.sha256] == pc.m
       && r in s.files && ObjectBytes(s, pc.m.sha256) == Some(s.files[r])
  }

  lemma AnsweredFacts(cfg: Config, events: seq<Event>, states: seq<State>, i: nat, r: Id)
    requires Behavior(cfg, events, states) && i < |states| && Answered(states[i], r)
    ensures var s, Ingest(c, pc) := states[i], states[i].ingests[r];
      && EvidenceOk(s, r, pc.m.sha256, pc.evidence, pc.reused)
      && Whole(cfg, s, r, pc.m) && s.files[r] == pc.m.sha256.of
      && (!s.tampered ==> pc.m.sha256 in s.objects)
  {
    EveryStateOk(cfg, events, states, i);
    assert IngestOk(cfg, states[i], r);
  }

  /** Whether an answer is true hangs on its association and its object alone. */
  lemma StandsExactly(cfg: Config, events: seq<Event>, states: seq<State>, i: nat, r: Id)
    requires Behavior(cfg, events, states) && i < |states| && Answered(states[i], r)
    ensures var s, pc := states[i], states[i].ingests[r].pc;
      Stands(s, r) <==> pc.evidence in s.db.assets && pc.m.sha256 in s.objects
  {
    var s, pc := states[i], states[i].ingests[r].pc;
    EveryStateOk(cfg, events, states, i);
    AnsweredFacts(cfg, events, states, i, r);
    if pc.evidence in s.db.assets && pc.m.sha256 in s.objects {
      assert AssetOk(s, pc.evidence);
      assert pc.m.sha256 in Referenced(s.db.assets) by { assert s.db.assets[pc.evidence].sha256 == pc.m.sha256; }
      BlobRowsAgree(cfg, s, pc.m, s.files[r]);
      ObjectsAreWhole(cfg, events, states, i, pc.m.sha256);
    }
  }

  lemma IngestAnswers(cfg: Config, s: State, t: State, q: Id, step: IngestStep, r: Id)
    requires IngestNext(cfg, s, t, q, step) && Answered(s, r)
    ensures r in t.ingests && t.ingests[r] == s.ingests[r]
  {
  }

  lemma AnswersStay(cfg: Config, s: State, t: State, e: Event, r: Id)
    requires Next(cfg, s, e, t) && Answered(s, r)
    ensures r in t.ingests && t.ingests[r] == s.ingests[r]
  {
    match e {
      case OfIngest(q, step) => IngestAnswers(cfg, s, t, q, step, r);
      case OfStart(q, step) => StartAssociations(s, t, q, step);
      case _ =>
    }
  }

  lemma IngestObjects(cfg: Config, s: State, t: State, r: Id, step: IngestStep, h: Sha256)
    requires IngestNext(cfg, s, t, r, step) && h in s.objects
    ensures h in t.objects
  {
  }

  /** An object goes exactly when it is deleted from outside. */
  lemma ObjectStep(cfg: Config, s: State, t: State, e: Event, h: Sha256)
    requires Next(cfg, s, e, t) && h in s.objects
    ensures h in t.objects <==> e != OutsideDelete(h)
  {
    match e {
      case OfIngest(r, step) => IngestObjects(cfg, s, t, r, step, h);
      case OfStart(r, step) => StartAssociations(s, t, r, step);
      case _ =>
    }
  }

  /** Nothing between two states takes back what answer `r` rests on. */
  ghost predicate Spared(events: seq<Event>, states: seq<State>, i: nat, j: nat, a: Id, h: Sha256)
    requires j <= |events| && j <= |states|
  {
    NeverUndone(events, states, i, j, a) && forall k :: i <= k < j ==> events[k] != OutsideDelete(h)
  }

  /** One step takes a true answer back exactly by compensating its association or deleting its object. */
  lemma AnswerStep(cfg: Config, events: seq<Event>, states: seq<State>, k: nat, r: Id)
    requires Behavior(cfg, events, states) && k < |events| && Stands(states[k], r)
    ensures var pc := states[k].ingests[r].pc;
      Stands(states[k + 1], r) <==>
        !Undoes(states[k], events[k], pc.evidence) && events[k] != OutsideDelete(pc.m.sha256)
  {
    var s, t, e, pc := states[k], states[k + 1], events[k], states[k].ingests[r].pc;
    assert StepAt(cfg, events, states, k);
    EveryStateOk(cfg, events, states, k);
    AnswersStay(cfg, s, t, e, r);
    AssociationStep(cfg, s, t, e, pc.evidence);
    StandsExactly(cfg, events, states, k, r);
    ObjectStep(cfg, s, t, e, pc.m.sha256);
    StandsExactly(cfg, events, states, k + 1, r);
  }

  lemma {:induction false} AnswerStands(
    cfg: Config, events: seq<Event>, states: seq<State>, i: nat, j: nat, r: Id, a: Id, h: Sha256)
    requires Behavior(cfg, events, states) && i <= j < |states| && Answered(states[i], r)
    requires a == states[i].ingests[r].pc.evidence && h == states[i].ingests[r].pc.m.sha256
    ensures Answered(states[j], r) && states[j].ingests[r] == states[i].ingests[r]
    ensures (forall k :: i <= k <= j ==> Stands(states[k], r)) <==>
              Stands(states[i], r) && Spared(events, states, i, j, a, h)
    decreases j - i
  {
    if i < j {
      AnswerStands(cfg, events, states, i, j - 1, r, a, h);
      assert StepAt(cfg, events, states, j - 1);
      AnswersStay(cfg, states[j - 1], states[j], events[j - 1], r);
      if Stands(states[j - 1], r) { AnswerStep(cfg, events, states, j - 1, r); }
    }
  }

  /**
   * When an accepted answer is durable. Its association is there if and only if no compensation
   * of it ever went through; the answer stays true if and only if it was true, and since then
   * neither was its association compensated nor its object deleted from outside. In a calm run
   * it is true.
   */
  lemma AcceptedIsDurable(cfg: Config, events: seq<Event>, states: seq<State>, i: nat, j: nat, r: Id)
    requires Behavior(cfg, events, states) && i <= j < |states| && Answered(states[i], r)
    ensures Answered(states[j], r) && states[j].ingests[r] == states[i].ingests[r]
    ensures var pc := states[i].ingests[r].pc;
      && (pc.evidence in states[j].db.assets <==> NeverUndone(events, states, 0, j, pc.evidence))
      && ((forall k :: i <= k <= j ==> Stands(states[k], r)) <==>
            Stands(states[i], r) && Spared(events, states, i, j, pc.evidence, pc.m.sha256))
    ensures Calm(states[j]) ==> Stands(states[j], r)
  {
    var pc := states[i].ingests[r].pc;
    AnswerStands(cfg, events, states, i, j, r, pc.evidence, pc.m.sha256);
    AnsweredFacts(cfg, events, states, j, r);
    CommittedStands(cfg, events, states, j, pc.evidence);
    if Calm(states[j]) {
      CalmRunsUndoNothing(cfg, events, states, j, pc.evidence);
      StandsExactly(cfg, events, states, j, r);
    }
  }

  /** Association `d` was compensated before `e` was committed. */
  ghost predicate Replaced(events: seq<Event>, states: seq<State>, j: nat, d: Id, e: Id)
    requires j <= |events| && j <= |states|
  {
    exists k :: 0 <= k < j && Undoes(states[k], events[k], d) && e !in states[k].minted
  }

  /** The second association of the same content in the same case is committed after the first went. */
  lemma SecondCommit(cfg: Config, events: seq<Event>, states: seq<State>, j: nat, d: Id, e: Id)
    requires Behavior(cfg, events, states) && 0 < j < |states|
    requires d in states[j].minted && e in states[j].minted && states[j].minted[d] == states[j].minted[e]
    requires d in states[j - 1].minted && e !in states[j - 1].minted
    ensures Replaced(events, states, j, d, e)
  {
    var s := states[j - 1];
    AssociationAt(cfg, events, states, j - 1, d);
    AssociationAt(cfg, events, states, j - 1, e);
    CommittedStands(cfg, events, states, j - 1, d);
    assert d !in s.db.assets;
    var k :| 0 <= k < j - 1 && Undoes(states[k], events[k], d);
    AlwaysOnward(cfg, events, states, k, j - 1);
    assert MintedKept(states[k], s, e);
  }

  lemma {:induction false} TwiceCommitted(cfg: Config, events: seq<Event>, states: seq<State>, j: nat, d: Id, e: Id)
    requires Behavior(cfg, events, states) && j < |states| && d != e
    requires d in states[j].minted && e in states[j].minted && states[j].minted[d] == states[j].minted[e]
    ensures Replaced(events, states, j, d, e) || Replaced(events, states, j, e, d)
  {
    if j > 0 {
      AssociationAt(cfg, events, states, j - 1, d);
      AssociationAt(cfg, events, states, j - 1, e);
      if d !in states[j - 1].minted {
        SecondCommit(cfg, events, states, j, e, d);
      } else if e !in states[j - 1].minted {
        SecondCommit(cfg, events, states, j, d, e);
      } else {
        TwiceCommitted(cfg, events, states, j - 1, d, e);
      }
    }
  }

  /**
   * Two accepted ingests of the same content into one case answer with the same evidence id if
   * and only if neither's association was compensated before the other's was committed. Then at
   * most one of them reports a new association.
   */
  lemma SameAnswer(cfg: Config, events: seq<Event>, states: seq<State>, i: nat, q: Id, r: Id)
    requires Behavior(cfg, events, states) && i < |states| && Answered(states[i], q) && Answered(states[i], r)
    requires states[i].ingests[q].caseId == states[i].ingests[r].caseId
    requires states[i].ingests[q].pc.m.sha256 == states[i].ingests[r].pc.m.sha256
    ensures var d, e := states[i].ingests[q].pc.evidence, states[i].ingests[r].pc.evidence;
      && (d == e <==> !Replaced(events, states, i, d, e) && !Replaced(events, states, i, e, d))
      && (d == e && !states[i].ingests[q].pc.reused && !states[i].ingests[r].pc.reused ==> q == r)
    ensures states[i].ingests[q].pc.m == states[i].ingests[r].pc.m
  {
    AnsweredFacts(cfg, events, states, i, q);
    AnsweredFacts(cfg, events, states, i, r);
    var d, e := states[i].ingests[q].pc.evidence, states[i].ingests[r].pc.evidence;
    if d != e {
      TwiceCommitted(cfg, events, states, i, d, e);
    } else {
      forall k | 0 <= k < i && Undoes(states[k], events[k], d) ensures d in states[k].minted {
        UndoneWasMinted(cfg, events, states, k, i, d);
      }
    }
  }

  /** An ingest that was refused, or that failed in the database, left no association behind. */
  lemma FailureAddsNoRow(cfg: Config, events: seq<Event>, states: seq<State>, i: nat, r: Id)
    requires Behavior(cfg, events, states) && i < |states| && r in states[i].ingests
    requires var pc := states[i].ingests[r].pc; pc.Unrecorded? || pc.Refused? || pc.Littered?
    ensures r !in states[i].db.assets
  {
    EveryStateOk(cfg, events, states, i);
    assert IngestOk(cfg, states[i], r) && AssetOk(states[i], r);
  }

  /**
   * What reconciliation lists, objects without a blob row: each belongs to an upload still on its
   * way to the tables, to one whose metadata was not committed, or to one whose association was
   * compensated.
   */
  lemma OrphansExplained(cfg: Config, events: seq<Event>, states: seq<State>, i: nat, h: Sha256)
    requires Behavior(cfg, events, states) && i < |states| && h in states[i].objects && h !in states[i].db.blobs
    ensures states[i].objects[h] in states[i].ingests
    ensures var pc := states[i].ingests[states[i].objects[h]].pc;
      && MeasuredOf(pc).Some? && MeasuredOf(pc).value.sha256 == h
      && (|| pc.Unlinking? || pc.Reading? || pc.Committing? || pc.Conflicted? || pc.Unrecorded? || pc.Littered?
          || (HoldsEvidence(pc) && !NeverUndone(events, states, 0, i, pc.evidence)))
  {
    EveryStateOk(cfg, events, states, i);
    var s := states[i];
    assert ObjectOk(s, h);
    var r := s.objects[h];
    assert IngestOk(cfg, s, r);
    IngestFacts(cfg, s, r);
    if HoldsEvidence(s.ingests[r].pc) {
      var a := s.ingests[r].pc.evidence;
      CommittedStands(cfg, events, states, i, a);
      if a in s.db.assets { assert s.db.assets[a].sha256 in Referenced(s.db.assets); }
    }
  }
}
