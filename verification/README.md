# Evidence intake, structural analysis and worker controls: a Dafny model

This project models the parts of the multimedia forensic platform whose correctness spans more
than one function, and proves what they are for:

* **Evidence intake and structural runs.** A content-addressed object store and SQLite tables
  without a common transaction. `Tables` holds the rows and the constraint-enforcing
  transactions; `IntakeSystem` is the whole deployment as a step system (files, staging names,
  objects, rows, and a program counter for every `ingest` and `start` in flight, with every
  step's failures, the clock going back and outside deletion as events); `IntakeInvariant` is what
  every step keeps, `IntakeTheorems` and `RunTheorems` are what follows for every run and every
  interleaving, `Outcomes` traces every verdict, acceptance and refusal back to the event that
  earned it, and `Witnesses` holds runs that end where they should not.
  `ContentStore`, `Repository` and `EvidenceIntake` are the same operations in the form of the
  program, as classes whose methods update fields. What these methods allow others to do between
  two of their own statements is the relation `Repository.Interference`, and `Interleaving` proves
  that the step system never does more.
* **Structural analysis.** `Integrity`, `StructuralEngine`, `ResultStorage` and
  `StructuralService` carry one `start` from the integrity check through adapters, stored
  artifacts and reports to the terminal run, and a report back out through `report_bytes`.
  `Timestamps` shows why sorting stored stamps as text is sorting them by time.
* **Safetensors layouts.** `Safetensors` is the header validator, from the decoded header on.
* **Phase 6 spend and queue control.** `Phase6Budget` (money over whole sessions),
  `Phase6Queue` (submission gate and polling loop), `Sanitizer` (the recursive check).
* **HTTPS input retrieval.** `InputFetcher`: the redirect loop, the bounded stream, and the job
  that cleans up after it.

Assumptions. Digests are injective: equal digests mean equal content. Random identifiers never
collide; a row or file is named by the request that mints it. The clock, the disk, the network,
adapters, rendering, URL splitting and Unicode lower-casing are parameters or unconstrained
replies. Two flags record trouble with stored objects: `tampered` after an outside deletion,
`misread` after a stored object could not be inspected or read. A state with neither is `Calm`.
Theorems that need one of them clear say so, and `IntakeTheorems.TroubleExactly` ties both flags
to the events that set them. Progress of runs assumes of the database and the clock exactly that
no `FaultOf` event strikes the run's own start.

## Where the code does less than it is described to do

* *Case status.* A case should read CREATED exactly when it has no evidence. SQLAlchemy sends
  only columns whose value changed, so an upload that loaded SEALED does not write SEALED again;
  if the case's only evidence is compensated away between its reads and its INSERT, the case
  stays CREATED with evidence in it. `IntakeTheorems.StatusExactly` has the exact condition over
  whole runs, `IntakeTheorems.CalmRunsKeepStatus` shows that it takes trouble with an object, and
  `Witnesses.StaleSealIsReachable` is a run that ends there with nothing deleted.
* *Accepted uploads.* A failed `lstat` in the final check of a duplicate upload counts as a
  missing object, and the compensation then deletes the association that the duplicate reused,
  although object and row were in order. That can happen after the first upload was accepted
  (`Witnesses.FailedLookDestroysAccepted`) and before (`Witnesses.AcceptedWithoutAssociation`: it
  is accepted all the same). `IntakeTheorems.AcceptedIsDurable` has the exact condition under which
  an answer is and stays true, `SameAnswer` the exact condition for equal answers.
* *Integrity refusals.* For the same reason a run can be REFUSED although nothing was deleted:
  `RunTheorems.RunsAgree` shows that a refusal means an outside deletion or a failed look.
* *Compensation.* `docs/architecture/system-overview.md:134` says that a failed final check
  removes the association. The RESTRICT keys prevent that once a run refers to it, and the
  failure is only logged (`Repository.Repository.CompensateMissingObject` has the condition,
  `Witnesses.BlockedCompensationIsReachable` a run that ends there).
* *Temporary files.* `docs/architecture/image-detector-worker.md:51` says that the file is always
  removed. It stays when removing it raises, and also when closing the decoded image raises,
  because it is removed after that (`InputFetcher.Execute` has the exact condition,
  `InputFetcher.FailedCloseLeavesFile` an input).
* *Runs and the clock.* A run is left RUNNING when the wall clock goes backwards between
  certain readings, because the records refuse it outside any guarded block
  (`StructuralService.StrandedByClockExactly` has the exact condition on the readings,
  `Witnesses.ClockStrandsRun` a run of the system that ends there). The record of a missing object
  is made inside one, and made again: the same readings refuse such a run instead. A run left
  RUNNING stays so, and its evidence can never be analyzed again (`RunTheorems.AbandonedForGood`).
* *HTML reports.* The JSON is read back before a run is finalized, the HTML is not: an HTML
  report over the read limit is finalized but can never be served
  (`StructuralService.FinalizedReportIsServed` has the exact condition,
  `StructuralService.UnservableHtmlHappens` a template for which it happens).
* *Zero dimensions.* For shapes with a zero, acceptance depends on the order of the dimensions
  (`Safetensors.ZeroShapesDependOnOrder`, with the exact test in `ShapeLoopExact`).
* *Deadlines that are not numbers.* The range test on the polling deadline admits `nan`, and a
  `nan` deadline never passes: a job that is never terminal is then polled for ever
  (`Phase6Queue.NanDeadlineNeverPasses`; `Phase6QueueController.PollUntilTerminal` covers both).

## Model

| member | source | states |
|---|---|---|
| MediaTypes.OnlyTheSignatureMatters | packages/evidence/src/forensic_evidence/media_types.py:25-49 | The detected type depends on the first 8192 bytes alone |
| MediaTypes.RecognitionIsStable | packages/evidence/src/forensic_evidence/media_types.py:25-49 | Once a prefix yields a type, every extension of it yields the same type |
| MediaTypes.ImagesExactly | packages/evidence/src/forensic_evidence/media_types.py:26-31 | JPEG, PNG and GIF are recognized exactly by their leading bytes |
| MediaTypes.RiffsExactly | packages/evidence/src/forensic_evidence/media_types.py:32-35 | WebP and WAV exactly by the RIFF mark and the form at byte 8 of at least 12 bytes |
| MediaTypes.AudioExactly | packages/evidence/src/forensic_evidence/media_types.py:36-41 | FLAC and MPEG audio exactly by their leading bytes |
| MediaTypes.VideosExactly | packages/evidence/src/forensic_evidence/media_types.py:42-49 | QuickTime, MP4 and WebM exactly by their container marks, the letters of webm in either case within 8192 bytes, and nothing recognized before |
| Tables.RecordKeepsConsistent | apps/api/src/forensic_api/db/repositories.py:194-231 | Recording evidence keeps: blob rows exactly for referenced hashes, unique (case, hash) pairs, cases and evidence of runs exist, one active run |
| Tables.CompensateKeepsConsistent | apps/api/src/forensic_api/db/repositories.py:253-281 | Compensation keeps the same, and needs the RESTRICT keys on evidence for it |
| Tables.CreateRunKeepsConsistent | apps/api/src/forensic_api/db/repositories.py:287-317 | Inserting a run keeps the same, by the partial unique index on RUNNING |
| Tables.FinalizeKeepsConsistent | apps/api/src/forensic_api/db/repositories.py:330-403 | Finalizing keeps the same; results, artifacts and reports hang only under terminal runs |
| Tables.TransactionsKeepConsistent | apps/api/src/forensic_api/db/repositories.py:181-403 | Every transaction, committed or refused, keeps the tables consistent |
| Tables.RecordStatusExact | apps/api/src/forensic_api/db/repositories.py:229-230 | Recording keeps "CREATED exactly when empty" if and only if it did not rely on a stale SEALED status |
| Tables.CompensateKeepsStatus | apps/api/src/forensic_api/db/repositories.py:270-281 | Compensation always keeps "CREATED exactly when empty" |
| Tables.FinalizeKeepsStatus | apps/api/src/forensic_api/db/repositories.py:396-403 | Marking a case ANALYZED never contradicts it: a finalized run's case has evidence |
| Tables.TransactionStatusExact | apps/api/src/forensic_api/db/repositories.py:181-403 | Over all transactions, the case status goes wrong exactly at a stale seal |
| Tables.TerminalRunsAreFinal | apps/api/src/forensic_api/db/repositories.py:340-344 | No transaction removes a run, changes a terminal one or replaces a report; only finalizing changes a run |
| Tables.FinalizeStores | apps/api/src/forensic_api/db/repositories.py:345-403 | After a finalization: exactly the given results, artifacts and report are added, the run row holds the document, the case is ANALYZED exactly for COMPLETED or PARTIAL, and every other row is as before |
| Tables.FinalizeDecides | apps/api/src/forensic_api/db/repositories.py:340-394 | A run is finalized exactly when it is there, RUNNING, and no name repeats or is already stored; each refusal exactly in its case |
| Tables.UndoLeaves | apps/api/src/forensic_api/db/repositories.py:262-281 | After a compensation: the association is gone, the blob row exactly when nothing else refers to it, the case reads CREATED exactly when emptied, and every other row is as before |
| Tables.BlobRowsComeFrom | apps/api/src/forensic_api/db/repositories.py:200-217 | Every blob row after a transaction was there before, unchanged, or holds exactly the measurements just recorded |
| IntakeInvariant.EveryStepKeeps | apps/api/src/forensic_api/services/evidence_intake.py:43-113 | Every enabled step of every request, faults included, keeps the system invariant; objects stay unless deleted from outside; a calm state still has every association ever committed |
| IntakeInvariant.EveryStateOk | apps/api/src/forensic_api/services/evidence_intake.py:43-113 | The invariant holds in every state of every run of the concurrent system |
| IntakeInvariant.LiveEvidenceVerifies | packages/structural/src/forensic_structural/integrity.py:29-92 | Without outside deletion the evidence of a live run has a row and an object that agree, so its check can fail only by failing to read |
| IntakeTheorems.AlwaysOnward | packages/evidence/src/forensic_evidence/local_content_addressed.py:214-226 | Between any two states of a run, an upload keeps its case, the ledger of committed associations only grows, trouble is not forgotten, and objects stay unless deleted from outside |
| IntakeTheorems.TroubleExactly | packages/evidence/src/forensic_evidence/local_content_addressed.py:203-259 | The two flags are set exactly when an object was deleted from outside earlier, and when a look at a stored object failed earlier |
| IntakeTheorems.RowsAgree | apps/api/src/forensic_api/db/models.py:39-48 | In every reachable state blob rows exist exactly for referenced hashes, (case, hash) pairs are unique, assets have cases, whatever was deleted or misread |
| IntakeTheorems.AssociationsPersist | apps/api/src/forensic_api/db/repositories.py:253-281 | Between any two states an association stays, unchanged, if and only if no compensation of it goes through between them |
| IntakeTheorems.CommittedStands | apps/api/src/forensic_api/db/repositories.py:253-281 | A committed association is in the tables if and only if no compensation of it has gone through since its commit, whatever else failed or was deleted |
| IntakeTheorems.CalmRunsUndoNothing | apps/api/src/forensic_api/services/evidence_intake.py:95-107 | In a calm run no compensation ever goes through |
| IntakeTheorems.StatusExactly | apps/api/src/forensic_api/db/repositories.py:194-281 | Over whole runs: up to a state every case reads CREATED exactly when it has no evidence, if and only if no stale commit came before |
| IntakeTheorems.CalmRunsKeepStatus | apps/api/src/forensic_api/db/repositories.py:194-281 | So the status is right throughout when all assigned columns are written, or when no object was deleted or misread |
| IntakeTheorems.ObjectsAreWhole | packages/evidence/src/forensic_evidence/local_content_addressed.py:214-226 | In every state whatever is visible under a hash is the whole content with that hash: no partial object is ever visible |
| IntakeTheorems.ObjectsPersist | packages/evidence/src/forensic_evidence/local_content_addressed.py:214-226 | Untampered, an object's bytes never change and it never goes away |
| IntakeTheorems.BlobRowsHaveObjects | apps/api/src/forensic_api/db/repositories.py:200-217 | Untampered, every blob row has an object with the recorded hashes, size and type |
| IntakeTheorems.OneCreator | packages/evidence/src/forensic_evidence/local_content_addressed.py:217-226 | Of all uploads of one content, exactly the one whose file became the object sees content_created |
| IntakeTheorems.MismatchesUnreachable | packages/evidence/src/forensic_evidence/local_content_addressed.py:203-212 | The metadata mismatch never happens; in a calm run neither does the object mismatch, and no compensation ever starts |
| IntakeTheorems.StagingIsCleaned | packages/evidence/src/forensic_evidence/local_content_addressed.py:228-249 | A staging name exists exactly while its upload is in put_stream, or when its removal failed |
| IntakeTheorems.SameAnswer | apps/api/src/forensic_api/db/repositories.py:198-237 | Two accepted ingests of one content into one case answer with one evidence id if and only if neither's association was compensated before the other's was committed; then at most one reports a new association |
| IntakeTheorems.AcceptedIsDurable | apps/api/src/forensic_api/services/evidence_intake.py:95-113 | An accepted answer: its association is there if and only if no compensation of it went through; it stays true if and only if it was true and since then neither was its association compensated nor its object deleted; in a calm run it is true |
| IntakeTheorems.StandsExactly | apps/api/src/forensic_api/services/evidence_intake.py:95-113 | Of an accepted answer the rows, the measurements and the bytes are all right as soon as its association and its object are there |
| IntakeTheorems.FailureAddsNoRow | apps/api/src/forensic_api/services/evidence_intake.py:67-93 | A refused ingest, or one that failed in the database, left no association |
| IntakeTheorems.OrphansExplained | apps/api/src/forensic_api/reconcile.py:24 | Each object without a blob row belongs to an upload in flight, with uncommitted metadata, or with a compensated association |
| Witnesses.StaleSealIsReachable | apps/api/src/forensic_api/db/repositories.py:194-230 | A run of the whole system, two uploads and one failed look, nothing deleted, after which a CREATED case has evidence |
| Witnesses.FailedLookDestroysAccepted | packages/evidence/src/forensic_evidence/local_content_addressed.py:251-259 | A run, nothing deleted, after which the association of an accepted upload is gone because a duplicate could not inspect the object |
| Witnesses.AcceptedWithoutAssociation | apps/api/src/forensic_api/services/evidence_intake.py:95-113 | A run, nothing deleted, whose next step accepts an upload with a new association that a duplicate has already compensated away |
| Witnesses.BlockedCompensationIsReachable | apps/api/src/forensic_api/services/evidence_intake.py:95-107 | A run after which an upload was answered with a consistency failure and its association is still there |
| Witnesses.ClockStrandsRun | apps/api/src/forensic_api/services/structural.py:110-157 | A run, nothing else amiss, after which a start is over, its run is RUNNING, and no other run of that evidence can be created |
| RunTheorems.RunsAgree | apps/api/src/forensic_api/db/models.py:56-64 | In every reachable state: one RUNNING run per evidence and profile, terminal document null exactly while RUNNING and carrying the stored status, a report exactly for COMPLETED and PARTIAL, a document that says verified exactly unless REFUSED, REFUSED only after an outside deletion or a failed look (what verified rests on is `Outcomes.VerdictsAreEarned`) |
| RunTheorems.RunStepOnward | apps/api/src/forensic_api/db/repositories.py:330-403 | A step leaves every run as it is or takes it from RUNNING to terminal |
| RunTheorems.TerminalForGood | apps/api/src/forensic_api/db/repositories.py:343-344 | A terminal run and its report are the same in every later state |
| RunTheorems.StartsAdvance | apps/api/src/forensic_api/services/structural.py:103-157 | A start that created its run always has an own next step, and every own step but a database or clock fault brings it strictly closer to a terminal run, whatever adapters, rendering and storage do |
| RunTheorems.StartsEnd | apps/api/src/forensic_api/services/structural.py:103-157 | In every run of the system: a start that is live and then takes as many fault-free own steps as its rank says, at most five, has its run terminal and answered with its status |
| RunTheorems.OthersLeaveStartsAlone | apps/api/src/forensic_api/services/structural.py:77-157 | No step of another request moves a start |
| RunTheorems.FailureIsRecordable | apps/api/src/forensic_api/services/structural.py:408-485 | Recording a refusal or an internal failure can never be refused by a constraint |
| RunTheorems.SuccessIsRecordable | apps/api/src/forensic_api/services/structural.py:400-405 | Nor can a success with distinct tests and artifacts |
| RunTheorems.RunningRunsAreOwned | apps/api/src/forensic_api/services/structural.py:77-157 | Every RUNNING run belongs to a start still at work, or to one under which the database failed or the clock went back earlier |
| RunTheorems.AbandonedByFault | apps/api/src/forensic_api/services/structural.py:110-157 | A start ends without ending its run only if the database failed or the clock went back under it |
| RunTheorems.AbandonedForGood | apps/api/src/forensic_api/services/structural.py:94-99 | A run abandoned after such a fault stays RUNNING in every later state, and no start of its evidence is let through again |
| RunTheorems.FinishedRunsDoNotBlock | apps/api/src/forensic_api/services/structural.py:94-99 | A start is turned away only because its evidence is gone or another start holds an unfinished run on it |
| Outcomes.VerdictsAreEarned | apps/api/src/forensic_api/services/structural.py:103-126 | Over every run of the system: a terminal document says verified exactly when an earlier verification step found row and object in order, the file behind the object having the recorded hashes and length; a run is REFUSED exactly when that step found otherwise or could not read the evidence |
| Outcomes.FinishedAsPlanned | apps/api/src/forensic_api/services/structural.py:133-144 | A run is COMPLETED or PARTIAL only because its own analysis went through with exactly that status |
| Outcomes.TurnedAwayRightly | apps/api/src/forensic_api/services/structural.py:94-99 | A start is told that another run is active exactly when, after its insert was refused, it saw an unfinished run of the same evidence |
| Outcomes.AcceptedByCheck | apps/api/src/forensic_api/services/evidence_intake.py:95-113 | An upload is accepted exactly through a final check at which its object was there with its length |
| Outcomes.FailuresAreEarned | apps/api/src/forensic_api/services/evidence_intake.py:95-107 | An upload is taken back, or answered with a consistency failure, exactly when its final check failed |
| Outcomes.RefusalsAreEarned | packages/evidence/src/forensic_evidence/local_content_addressed.py:138-226 | Every refusal of an upload goes back to the event that calls for exactly this one: the limit passed, nothing delivered, a type not recognized or not allowed, a failed read, write or link, an existing object that differs or cannot be read |
| Timestamps.TextOrderIsTimeOrder | apps/api/src/forensic_api/db/repositories.py:34-35 | For all UTC times, lexicographic order of the isoformat text is time order, and equal text is equal time, although the fraction may be missing (beyond section 5.1 of RFC 3339) |
| Timestamps.FieldsOrder | apps/api/src/forensic_api/db/repositories.py:34-35 | Zero-padded fields with separators sort as their values |
| Timestamps.SuffixOrder | apps/api/src/forensic_api/db/repositories.py:34-35 | A whole second sorts before any fraction of it, and fractions sort by value |
| Repository.ForeignTransactionsInterfere | apps/api/src/forensic_api/db/repositories.py:181-403 | Every transaction of another client, compensations of one's own association included, stays within the interference relation |
| Repository.InterferenceComposes | apps/api/src/forensic_api/db/repositories.py:181-403 | Interference is reflexive and transitive, so it stands for any number of transactions |
| Repository.ReferredAssociationsStay | apps/api/src/forensic_api/db/models.py:56-64 | No interference takes back an association that a run or a report refers to |
| Repository.RecordedRightly | apps/api/src/forensic_api/db/repositories.py:198-231 | With right measurements, a new association has exactly that blob row whatever others did, and rows that were right before are right afterwards |
| Interleaving.OthersInterfere | apps/api/src/forensic_api/db/repositories.py:181-403 | Over every run of the system: between any two steps of a request the rows change only as the interference relation allows |
| Interleaving.RowsAreRight | apps/api/src/forensic_api/db/repositories.py:200-217 | In every reachable state each blob row holds the SHA-512, the length and the detected type of the content its key is the SHA-256 of |
| Repository.Repository.SelectCaseBlob | apps/api/src/forensic_api/db/repositories.py:239-251 | Finds an association of the content in the case exactly when there is one |
| Repository.Repository.InsertEvidence | apps/api/src/forensic_api/db/repositories.py:200-231 | Commits all of blob row, asset row and status, or nothing, exactly as the constraints decide |
| Repository.Repository.RecordEvidence | apps/api/src/forensic_api/db/repositories.py:181-237 | Under any interference: when it returns, a success answers with an association in the tables, its own exactly when not reused, and with one that was there before, if there was one; a failure committed none; the missing case and the metadata mismatch exactly in their cases |
| Repository.Repository.CompensateMissingObject | apps/api/src/forensic_api/db/repositories.py:253-281 | Under interference between its read and its DELETE: removes the association and an unused blob row and unseals an emptied case, unless a RESTRICT key rolls all of it back; every row afterwards is spelled out |
| Repository.Repository.DeleteAssociation | apps/api/src/forensic_api/db/repositories.py:257-281 | Its write transaction: exactly the compensation of the tables, or nothing |
| Repository.Repository.CreateStructuralRun | apps/api/src/forensic_api/db/repositories.py:287-328 | Inserts exactly when allowed; a conflict is reported as an active run exactly when one is there at the second look |
| Repository.Repository.FinalizeStructuralRun | apps/api/src/forensic_api/db/repositories.py:330-403 | Adds exactly one row per test result and artifact and the given report, ends the run with its document and marks the case, each table spelled out; or changes nothing at all, exactly when missing, terminal or in violation |
| Repository.Repository.AddRows | apps/api/src/forensic_api/db/repositories.py:345-375 | The loop clashes exactly when the names repeat or a row is already there |
| Repository.Repository.ListStructuralRuns | apps/api/src/forensic_api/db/repositories.py:405-436 | Exactly the runs of the evidence, each with its stored status, newest first and ties by id |
| Repository.ListedInTime | apps/api/src/forensic_api/db/repositories.py:413-416 | What is listed first did not start before what is listed after it, in time and not only as text |
| Repository.Repository.LatestStructuralReport | apps/api/src/forensic_api/db/repositories.py:438-456 | Returns a report of the case that no other one is newer than, or none exactly when there is none |
| Repository.LatestIsLatest | apps/api/src/forensic_api/db/repositories.py:438-446 | The report picked by text order is latest in time, ties broken by id |
| Repository.NewestIsUnique | apps/api/src/forensic_api/db/repositories.py:438-446 | Two reports that tie share stamp and id, so the newest of a case is unique |
| ContentStore.HashInChunks | packages/evidence/src/forensic_evidence/local_content_addressed.py:189-201 | For every chunk size the loop computes digests and length of the whole content |
| ContentStore.DeliveredJoins | packages/evidence/src/forensic_evidence/local_content_addressed.py:143-187 | Chunks that hold bytes are delivered one after the other, and break nothing off |
| ContentStore.DeliveredStops | packages/evidence/src/forensic_evidence/local_content_addressed.py:143-187 | The first fault breaks an upload off and the first empty chunk ends it, whatever would come later |
| ContentStore.LocalContentAddressedStorage.WriteChunk | packages/evidence/src/forensic_evidence/local_content_addressed.py:138-141 | A chunk write appends it, or on failure a prefix of it, and touches no other file |
| ContentStore.LocalContentAddressedStorage.StreamToStaging | packages/evidence/src/forensic_evidence/local_content_addressed.py:143-187 | For every chunking: digests, total and 8192-byte prefix of the whole content, staged file equal to it; too large, interrupted or empty exactly when the whole content is; never a byte past the limit on disk |
| ContentStore.LocalContentAddressedStorage.Promote | packages/evidence/src/forensic_evidence/local_content_addressed.py:203-226 | Links the staged content under its hash or confirms an equal object, never replaces one; a mismatch is reported exactly when an existing object cannot be inspected |
| ContentStore.LocalContentAddressedStorage.PutStream | packages/evidence/src/forensic_evidence/local_content_addressed.py:228-249 | After every exit the staging directory is as before (unlink working); the only new object is the whole content under its own hash; a mismatch takes an existing object that cannot be inspected; success is decided by the content alone when the disk works |
| EvidenceIntake.EvidenceIntakeService.RecordAndCheck | apps/api/src/forensic_api/services/evidence_intake.py:84-113 | A success names an association that was in the tables when record_evidence returned, its own exactly when not reused; since then only other clients acted. The consistency failure means a deleted or uninspectable object, and leaves the association, own or reused, only if a run refers to it or the database failed |
| EvidenceIntake.EvidenceIntakeService.CheckOrCompensate | apps/api/src/forensic_api/services/evidence_intake.py:95-107 | The final check fails exactly when the object was deleted or cannot be inspected, whatever became of the association; then the association goes, unless a run refers to it or the database failed |
| EvidenceIntake.EvidenceIntakeService.Store | apps/api/src/forensic_api/services/evidence_intake.py:59-82 | A stored upload is measured with the hashes, the length and the detected type of its whole content; each refusal is the one the content calls for |
| EvidenceIntake.EvidenceIntakeService.Associate | apps/api/src/forensic_api/services/evidence_intake.py:84-93 | A guarded record names an association that is in the tables; the blob row of a new one, and of any when all rows were right, has exactly the given measurements |
| EvidenceIntake.AdmissionExactly | apps/api/src/forensic_api/services/evidence_intake.py:51-58 | Which declaration of an upload is refused before anything is stored, and exactly when |
| EvidenceIntake.EvidenceIntakeService.Ingest | apps/api/src/forensic_api/services/evidence_intake.py:43-113 | Accepted uploads are stored under their hash and were associated, under interference at every point, with the blob row Measured(SHA-256, SHA-512, length, detected type) of the whole content, so that an integrity check of the stored object says VERIFIED; refused ones leave no own association; each error exactly in its case |
| Integrity.Verify | packages/structural/src/forensic_structural/integrity.py:29-113 | For every chunk size it classifies the whole object: VERIFIED exactly for the recorded hashes and length, a size mismatch before a hash mismatch, missing or unreadable otherwise; it raises exactly when the clock went back, for a missing object exactly when it went back at both of its readings |
| Integrity.VerifiedIsTheUpload | packages/structural/src/forensic_structural/adapters/file_signature.py:15-18 | An object verifies against an intake record exactly when it is the upload itself, and then the signature test re-derives the recorded type |
| Integrity.StoredObjectsVerify | packages/structural/src/forensic_structural/integrity.py:52-58 | In an untampered, readable store a recorded object is verified or missing, never mismatched |
| StructuralEngine.SetSizeDetectsDuplicates | packages/structural/src/forensic_structural/registry.py:107-109 | Comparing list length with set size detects exactly the repeated ids |
| StructuralEngine.MakeRegistry | packages/structural/src/forensic_structural/registry.py:103-110 | A registry is built exactly from distinct test ids |
| StructuralEngine.RunTools | packages/structural/src/forensic_structural/service.py:98-113 | One result per adapter in order, and a raw artifact under its name exactly when the adapter produced one |
| StructuralEngine.TestForIsValid | packages/contracts/src/forensic_contracts/models.py:305-327 | A built test result is valid exactly when the adapter kept its contract, a reason that is not blank included, and the names fit |
| StructuralEngine.StripsToNothing | packages/contracts/src/forensic_contracts/models.py:48-53 | Exactly the texts of white space alone are stripped to nothing, so a blank reason counts as missing |
| StructuralEngine.BuildTestResults | packages/structural/src/forensic_structural/service.py:161-241 | The loop yields one result per definition in registry order, or raises exactly when one is invalid |
| StructuralEngine.Analyze | packages/structural/src/forensic_structural/service.py:70-159 | For every registry and adapters: answers exactly when nothing raises, one valid result per definition in order, PARTIAL exactly when one is FAILED or PROVIDER_UNAVAILABLE |
| StructuralEngine.OneAnalysis | packages/structural/src/forensic_structural/service.py:70-159 | Registry, adapters and clock determine the whole answer |
| StructuralEngine.PartialComesFromAdapters | packages/structural/src/forensic_structural/service.py:143-150 | A run is PARTIAL exactly when an adapter of a registered test failed or was unavailable |
| StructuralEngine.NamedArtifactsExist | packages/structural/src/forensic_structural/service.py:176-186 | A test names an output artifact exactly when its own tool's artifact was collected |
| StructuralEngine.TestNamesAreDistinct | apps/api/src/forensic_api/db/models.py:86-88 | The unique key (run, test) cannot be violated by an engine result |
| StructuralEngine.AdaptedResults | packages/structural/src/forensic_structural/service.py:174-198 | Each adapted test says what its adapter said: status, stripped reason and warnings, runtime and times exactly when executed, outputs and error code |
| StructuralEngine.UnsupportedResults | packages/structural/src/forensic_structural/service.py:79-108 | For other media every adapted test is UNSUPPORTED_INPUT and the analysis COMPLETED |
| StructuralEngine.SummaryResults | packages/structural/src/forensic_structural/service.py:200-240 | Every other test is executed exactly when it lists the category, with the summary its name ends with, or else the findings; only the consistency test lists them as its own |
| StructuralEngine.CategoryExactly | packages/structural/src/forensic_structural/registry.py:118-121 | The category is what stands before the first slash, exactly if it is image, audio or video |
| StructuralEngine.AnalysisExists | packages/structural/src/forensic_structural/service.py:70-159 | When nothing raises there is an answer: the conditions on adapters are enough |
| StructuralTests.SuiteNamesAreOk | apps/api/src/forensic_api/services/structural.py:51-55 | The files of a run have distinct, storable names |
| StructuralTests.AnalyzeDefault | packages/structural/src/forensic_structural/service.py:62-159 | With the registered adapters: answers exactly when nothing raises, results of distinct tests in registry order, PARTIAL exactly when an adapter of a registered test failed or was unavailable |
| ResultStorage.UuidRoundTrip | packages/structural/src/forensic_structural/artifacts.py:99-100 | Parsing the printed form of any UUID gives it back |
| ResultStorage.UriRoundTrip | packages/structural/src/forensic_structural/artifacts.py:72-112 | The URI that put_bytes returns resolves to the file it wrote |
| ResultStorage.UrisAreUnambiguous | packages/structural/src/forensic_structural/artifacts.py:93-104 | Different artifacts never share a URI, and every URI that resolves names a storable artifact |
| ResultStorage.LocalResultStorage.PutBytes | packages/structural/src/forensic_structural/artifacts.py:35-76 | Create-only: a repeated put succeeds exactly when the content is equal, although only one byte more is read; a failed write leaves at most a prefix |
| ResultStorage.LocalResultStorage.ReadBytes | packages/structural/src/forensic_structural/artifacts.py:78-91 | Returns the whole file exactly when the URI resolves to one within the limit that can be read |
| StructuralService.StoreRaw | apps/api/src/forensic_api/services/structural.py:217-246 | Every raw artifact is stored and referenced under its own tool's test, or the loop fails exactly when a needed write does |
| StructuralService.AttachIsByTool | apps/api/src/forensic_api/services/structural.py:247-252 | Attaching references by test name gives each test its own tool's artifact |
| StructuralService.AllAttachedAreNamed | apps/api/src/forensic_api/services/structural.py:247-252 | Each named output artifact is stored and attached to that test, and nothing else is attached; the tests are the registry's in order |
| StructuralService.StoreReports | apps/api/src/forensic_api/services/structural.py:300-308 | Both reports are stored exactly when writes, reading the JSON back, the limit and rendering allow it |
| StructuralService.PersistFiles | apps/api/src/forensic_api/services/structural.py:204-308 | Succeeds exactly when everything is storable; writes only under its own run and changes no existing file |
| StructuralService.StoredBytesComeBack | apps/api/src/forensic_api/services/structural.py:177-187 | After any later puts a stored file reads back as written, exactly when within the read limit |
| StructuralService.ReportBytes | apps/api/src/forensic_api/services/structural.py:166-188 | Serves the newest report of the case, and only bytes that still have the recorded hash; each error, of the database and of the file included, exactly in its case |
| StructuralService.LiveRunsFinalize | apps/api/src/forensic_api/db/repositories.py:340-344 | A RUNNING run can always be finalized with distinct tests and artifacts |
| StructuralService.Finish | apps/api/src/forensic_api/db/repositories.py:330-403 | One's own live run is finalized whatever others committed before, exactly when the database works; otherwise it stays as it was |
| StructuralService.AnalyzeAndPersist | apps/api/src/forensic_api/services/structural.py:133-144 | The guarded block succeeds exactly when analysis, storage and clock allow it, PARTIAL exactly when a registered test was impaired, with every named artifact stored and attached |
| StructuralService.AnalyzeAndFinish | apps/api/src/forensic_api/services/structural.py:133-157 | For verified evidence: COMPLETED, PARTIAL, FAILED or RUNNING as the same inputs determine, and a finished run is delivered: a document that says verified and no error, exactly one result row per registered test, exactly one artifact row per stored file, the report row, the files and the attached artifacts |
| StructuralService.Conclude | apps/api/src/forensic_api/services/structural.py:110-157 | Which of REFUSED, FAILED, COMPLETED, PARTIAL a created run ends in, and exactly when it stays RUNNING, as a function of all six clock readings, the database, the object, the adapters and the disk |
| StructuralService.Start | apps/api/src/forensic_api/services/structural.py:77-157 | A whole start under interference and failing database calls: PARTIAL exactly when persisted and some registered adapter answered FAILED or PROVIDER_UNAVAILABLE, COMPLETED exactly when persisted and none did, FAILED or REFUSED exactly as the object read does or does not have the recorded hashes and length; the run row agrees, a finished run is delivered, and each other answer has its exact cause |
| StructuralService.StartRun | apps/api/src/forensic_api/services/structural.py:77-157 | The ending as a function of all six clock readings, the database, the object, the adapters and the disk, over created runs |
| StructuralService.EndingsExactly | apps/api/src/forensic_api/services/structural.py:103-157 | That function, ending by ending: what must have happened, and which readings of the clock allow it |
| StructuralService.PassesExactly | packages/structural/src/forensic_structural/integrity.py:52-92 | Evidence passes exactly when it can be read and its object has the recorded hashes and length |
| StructuralService.ImpairedExactly | packages/structural/src/forensic_structural/service.py:143-150 | A run is impaired exactly when an adapter of a registered test answers FAILED or PROVIDER_UNAVAILABLE |
| StructuralService.WorkingRunsSucceed | apps/api/src/forensic_api/services/structural.py:133-144 | Adapters that keep their contract, a disk and templates that work, a JSON report within 64 MiB and a clock that did not go back are enough for success |
| StructuralService.FilesAreNamed | apps/api/src/forensic_api/services/structural.py:217-246 | The artifact rows name exactly the stored raw artifacts and the two reports |
| StructuralService.MonotoneClocksEndRuns | apps/api/src/forensic_api/services/structural.py:103-157 | With a clock that never goes back and a working database every created run is left terminal, REFUSED exactly when it did not verify |
| StructuralService.StrandedByClockExactly | apps/api/src/forensic_api/services/structural.py:110-157 | With a working database a created run stays RUNNING exactly when a completion lies before a start it is recorded with, for a missing object at both readings; one clock that strands a verified run and refuses one without its object |
| StructuralService.FinalizedBytesComeBack | apps/api/src/forensic_api/services/structural.py:300-308 | After any later puts the finalized JSON reads back under its URI and hash, and the HTML exactly when it is within the limit |
| StructuralService.FinalizedReportIsServed | apps/api/src/forensic_api/services/structural.py:166-188 | After any later transactions and files, while no report of the case is newer or ties, report_bytes answers with the finalized JSON, and with the HTML exactly when it is within the limit |
| StructuralService.UnservableHtmlHappens | apps/api/src/forensic_api/services/structural.py:300-308 | Whatever run succeeds, some other template makes it succeed, with the same JSON, with an HTML report that can never be served |
| Safetensors.CountElements | workers/image-community/src/forensic_image_community/cache_resolver.py:159-166 | The dimension loop passes exactly when every partial product fits, and then counts the elements (the count is pinned by `ProductsMultiply`) |
| Safetensors.ProductsMultiply | workers/image-community/src/forensic_image_community/cache_resolver.py:159-166 | What an element count is: that of one dimension is the dimension, of none is one, and dimensions put together multiply |
| Safetensors.ShapeLoopExact | workers/image-community/src/forensic_image_community/cache_resolver.py:159-166 | The early exit tests exactly the product before the first zero; for zero-free shapes that is the full product |
| Safetensors.NeverRejectsConsistent | workers/image-community/src/forensic_image_community/cache_resolver.py:159-171 | It never rejects a zero-free shape that the final equality would accept |
| Safetensors.ZeroShapesDependOnOrder | workers/image-community/src/forensic_image_community/cache_resolver.py:159-166 | Two orders of the same dimensions, one accepted and one rejected |
| Safetensors.InspectTensor | workers/image-community/src/forensic_image_community/cache_resolver.py:130-172 | A record passes exactly when type, shape and range agree |
| Safetensors.DtypeWidths | workers/image-community/src/forensic_image_community/cache_resolver.py:23-39 | Which type names have one, two, four and eight bytes, and no others |
| Safetensors.OneTensorExactly | workers/image-community/src/forensic_image_community/cache_resolver.py:130-191 | A file with one tensor of two positive dimensions is acceptable exactly when its data are width * a * b bytes |
| Safetensors.FourWidths | workers/image-community/src/forensic_image_community/cache_resolver.py:130-191 | The same in plain numbers for U8, F16, F32 and F64 |
| Safetensors.InspectOneFloatTensor | workers/image-community/src/forensic_image_community/cache_resolver.py:81-192 | The inspector on a file with one F32 tensor of shape [a, b]: counts one, exactly when the data are 4ab bytes and the header length is permitted |
| Safetensors.MetadataIsIgnored | workers/image-community/src/forensic_image_community/cache_resolver.py:119-129 | A metadata entry must be an object and changes neither acceptance nor count |
| Safetensors.ScanDecidesTiling | workers/image-community/src/forensic_image_community/cache_resolver.py:179-191 | The scan of the sorted ranges succeeds exactly when every data byte is in exactly one range and no empty range stands inside another |
| Safetensors.TiledSizes | workers/image-community/src/forensic_image_community/cache_resolver.py:179-191 | In a tiled layout the sizes sum to the data section |
| Safetensors.ScanRanges | workers/image-community/src/forensic_image_community/cache_resolver.py:179-191 | The loop is the contiguity test on the sorted ranges |
| Safetensors.InspectSafetensors | workers/image-community/src/forensic_image_community/cache_resolver.py:81-192 | Accepts exactly the layouts whose entries pass, that hold a tensor, and whose tensors tile the data; returns their number; sizes sum to file size - 8 - header length |
| Safetensors.HeaderOrderIsIrrelevant | workers/image-community/src/forensic_image_community/cache_resolver.py:119-192 | Acceptance and count are the same for every order of the header entries |
| Safetensors.PermutedRanges | workers/image-community/src/forensic_image_community/cache_resolver.py:119-192 | Permuting the entries keeps the number of ranges, their members and how often each byte is covered |
| Sanitizer.VisitExact | workers/image-community/src/forensic_image_community/phase6_control.py:482-505 | A tree is accepted exactly when no key and no string at any depth is prohibited, and a rejection names one that is there |
| Sanitizer.SubtreesAreSanitary | workers/image-community/src/forensic_image_community/phase6_control.py:482-505 | Acceptance is inherited by every subtree |
| Phase6Budget.NormalWithinWorst | workers/image-community/src/forensic_image_community/phase6_control.py:276-307 | The derived normal minimum never exceeds the worst-case minimum |
| Phase6Budget.OneBudgetDecided | workers/image-community/src/forensic_image_community/phase6_control.py:264-318 | A budget that is valid to the last thousandth, and one change for every reason to reject it |
| Phase6Budget.SessionBounded | workers/image-community/src/forensic_image_community/phase6_control.py:554-559 | However many submissions are attempted, billed seconds stay within the share of the jobs let through, and the counter within the cap |
| Phase6Budget.SpendBound | workers/image-community/src/forensic_image_community/phase6_control.py:264-318 | Over every session: at most two more jobs, incurred plus future cost within the worst-case estimate, hence within 2.00, and the balance never negative |
| Phase6Budget.HourlyBillingIsClose | workers/image-community/src/forensic_image_community/phase6_control.py:266-268 | Billing by the hour instead moves a session's total by at most 9620 x 10^-9 |
| Phase6Budget.WorstCaseIsReached | workers/image-community/src/forensic_image_community/phase6_control.py:292-300 | The bound on billed seconds is attained by an admissible session |
| Phase6Budget.PlannedSessionIsNormal | workers/image-community/src/forensic_image_community/phase6_control.py:278-286 | The seconds behind the normal minimum are those of the planned session: bootstrap and validation as expected on both workers |
| Phase6Queue.SecondCheckIsRedundant | workers/image-community/src/forensic_image_community/phase6_control.py:508-521 | The second sanitizer pass on a completed output can never reject what the first accepted |
| Phase6Queue.PartsAreSanitary | workers/image-community/src/forensic_image_community/phase6_control.py:577-584 | Every part of a result that passes the check is sanitary: identifier, the four values, every extra field and its key |
| Phase6Queue.ReturnedMeans | workers/image-community/src/forensic_image_community/phase6_control.py:508-521 | A returned result is terminal and sanitary; a completed one has an output without worker error that meets the contract of its own operation |
| Phase6Queue.TerminalExactly | workers/image-community/src/forensic_image_community/phase6_control.py:41 | Exactly queued and running jobs are polled again |
| Phase6Queue.ApprovalsFitOnce | workers/image-community/src/forensic_image_community/phase6_control.py:326-329 | An approval fits one proposal and one budget only |
| Phase6Queue.AtMost901Calls | workers/image-community/src/forensic_image_community/phase6_control.py:534-575 | No permitted deadline and interval allow more than 901 status calls |
| Phase6Queue.NanDeadlineNeverPasses | workers/image-community/src/forensic_image_community/phase6_control.py:572-574 | The range test admits nan, and an admitted deadline can pass exactly when it is a number |
| Phase6Queue.CheckTerminal | workers/image-community/src/forensic_image_community/phase6_control.py:577-584 | A terminal result passes exactly when it is sanitized and, if completed, matches the expected operation |
| Phase6Queue.Phase6QueueController.SubmitApproved | workers/image-community/src/forensic_image_community/phase6_control.py:540-563 | One job goes out exactly when the approval holds the digests of this proposal and this budget, the operation matches and the counter is 5 or 6, whatever becomes of its receipt; each refusal names its cause |
| Phase6Queue.Phase6QueueController.PollUntilTerminal | workers/image-community/src/forensic_image_community/phase6_control.py:565-591 | However long it is watched, polling goes on exactly while statuses are valid and not terminal; a number as deadline ends it within ceil(D/p)+1 calls by one cancellation past the deadline, nan never does; it returns exactly a last status that is terminal and passes |
| Phase6Queue.Phase6QueueController.CancelJob | workers/image-community/src/forensic_image_community/phase6_control.py:585-590 | The cancellation at the deadline: one call, reported as the deadline exactly when it is confirmed and sanitized |
| InputFetcher.HttpsInputFetcher.ValidateDestination | workers/image-community/src/forensic_image_community/input_fetcher.py:111-130 | A URL passes exactly when it is https on no other port than 443, carries no credentials, names an allowed host, and that host resolves, to global addresses only |
| InputFetcher.HttpsInputFetcher.StreamToFile | workers/image-community/src/forensic_image_community/input_fetcher.py:226-266 | For every chunking it succeeds exactly when the whole body is the job's input; a complete body that is too short or has another hash is reported as just that; the file never outgrows the limits |
| InputFetcher.StreamedJoins | workers/image-community/src/forensic_image_community/input_fetcher.py:231-246 | What is received is what the chunks hold, one after the other |
| InputFetcher.InterruptedExactly | workers/image-community/src/forensic_image_community/input_fetcher.py:231-248 | Retrieval is interrupted exactly when some event of the body is a stream failure, late, or a failing write |
| InputFetcher.CarriesExactly | workers/image-community/src/forensic_image_community/input_fetcher.py:190-266 | What an accepted response is: headers, declared length, every event of the body, length and hash of the content |
| InputFetcher.HttpsInputFetcher.ConsumeResponse | workers/image-community/src/forensic_image_community/input_fetcher.py:190-284 | Succeeds exactly when the response carries the job's input; a failure leaves the directory as it was, except exactly when a written file cannot be removed |
| InputFetcher.HttpsInputFetcher.FinalExact | workers/image-community/src/forensic_image_community/input_fetcher.py:149-179 | The loop's outcome is the 200 response that at most max_redirects permitted redirects lead to, and there is one exactly then |
| InputFetcher.HttpsInputFetcher.Locate | workers/image-community/src/forensic_image_community/input_fetcher.py:146-188 | At most max_redirects + 1 requests, each right after its own URL was validated, and the response the redirects lead to |
| InputFetcher.HttpsInputFetcher.Fetch | workers/image-community/src/forensic_image_community/input_fetcher.py:132-284 | Succeeds exactly when that response carries the job's input; every URL requested is https, has no other port than 443 and an allowed host; success leaves one new file with the job's length and hash; failure none, except exactly when a written file cannot be removed; no file ever outgrows both limits |
| InputFetcher.Execute | workers/image-community/src/forensic_image_community/job_service.py:65-105 | No temporary file survives a job, except exactly when removing one raises or the decoded image cannot be closed; no job outside its validity period, profile or permitted types is fetched; the second hash comparison never fails |
| InputFetcher.FailedCloseLeavesFile | workers/image-community/src/forensic_image_community/job_service.py:101-105 | An approved, retrieved and decoded job whose image cannot be closed leaves its file in an empty directory |

## Left out

- Routes, dependency wiring, settings, logging, migrations, command-line tools and workflow scripts: plumbing without unbounded state.
- Model loading, inference, parity, image decoding and preprocessing, and the subprocess runner: foreign code; their outcomes are parameters.
- JSON, YAML and pydantic text handling, Jinja rendering and regex redaction: library behaviour; values are modelled after decoding, and test reasons are abbreviated.
- Real hash functions: digests are injective by assumption, so collision handling is not modelled.
- DNS, TLS pinning and address classification: a destination's addresses are given as global or not.
- Symbolic links, directories and path containment in the stores and in the model cache: keys are logical.
- The columns `original_filename`, `client_mime_type`, versions and audit stamps of rows, and the creation of cases beyond their status.
- Outside changes to the bytes of a stored object: the step system models outside deletion only; `Integrity` classifies any bytes.
- Other requests' files and objects inside `ContentStore` and `EvidenceIntake`: these classes show the store to one request, whose tables others change; `IntakeSystem` interleaves everything.
- Process crashes: a crash during `start` can leave a run RUNNING, as the program accepts.
- The read and the write of finalize_structural_run are one step: no other client finalizes one's own run.
- `uuid4` and `UUID(text)`: identifiers are never reused, and of the parser's leniencies only dashes and letter case are modelled.
- Decimal and float representation: money and clocks are exact reals, and an approval binds the budget's values, not their spelling.
- Endpoint proposals, worker assignments, health and locking in phase6_control: field-by-field checks that one unfolding settles.
- The tool inventory, summaries and consistency findings of the engine: only the ways they can make an analysis raise are kept.
- Phase6Queue.Phase6QueueController.PollUntilTerminal: is watched for a given number of calls, any number, since it need not end; an interval of `nan` is left to `wait`, which is not part of this model.
- MemoryInputFetcher, the metadata adapters and artifact envelopes: the first is local only, the others only add easy members.
