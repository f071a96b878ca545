/** Why requests end as they do: every answer goes back to the step that earned it. */
module Outcomes {
  import opened Prelude
  import opened MediaTypes
  import opened Tables
  import opened IntakeSystem
  import opened IntakeInvariant
  import opened IntakeTheorems
  import RunTheorems

  // ---------------------------------------------------------------- the verdict on a run's evidence

  /**
   * The association, its blob row and its object are there, and the file behind the object has
   * exactly the recorded hashes and length.
   */
  ghost predicate Intact(s: State, e: Id) {
    && e in s.db.assets
    && var h := s.db.assets[e].sha256;
       && h in s.db.blobs && h in s.objects && s.objects[h] in s.files
       && var content, row := s.files[s.objects[h]], s.db.blobs[h];
          Sha256(content) == row.sha256 && Sha512(content) == row.sha512 && |content| == row.byteLength
  }

  /** Verification of run `r` read evidence `e` and found it intact. */
  ghost predicate Clears(s: State, v: Event, r: Id, e: Id) {
    v == OfStart(r, VerifyEvidence) && Intact(s, e)
  }

  /** It could not read the evidence, or found it not intact. */
  ghost predicate Condemns(s: State, v: Event, r: Id, e: Id) {
    v == OfStart(r, EvidenceUnreadable) || (v == OfStart(r, VerifyEvidence) && !Intact(s, e))
  }

  /** What verification has come to so far, as the program counter remembers it. */
  datatype Standing = Unverified | Cleared | Condemned | Forgotten

  function StandingOf(pc: StartPc): Standing {
    match pc
    case Creating(_) => Unverified
    case Querying => Unverified
    case Verifying(_) => Unverified
    case Analyzing => Cleared
    case Finishing(_) => Cleared
    case RecordingFailure => Cleared
    case RecordingRefusal => Condemned
    case Ended(end) =>
      match end
      case Returned(status) => if status.REFUSED? then Condemned else Cleared
      case Stranded => Forgotten
      case OutOfTime => Forgotten
      case _ => Unverified
  }

  lemma LiveEvidenceIsGrounded(cfg: Config, s: State, r: Id)
    requires Inv(cfg, s) && r in s.starts && s.starts[r].pc.Verifying?
    ensures s.starts[r].evidence in s.db.assets
    ensures s.db.assets[s.starts[r].evidence].sha256 == s.starts[r].pc.sha256
  {
    assert StartOk(s, r) && RunRowOk(s.db.runs[r], s.db.assets) && AssetOk(s, s.starts[r].evidence);
  }

  lemma VerificationStanding(cfg: Config, s: State, t: State, r: Id)
    requires Inv(cfg, s) && VerifyEvidenceStep(s, t, r)
    ensures s.starts[r].pc.Verifying? && t.starts == s.starts[r := t.starts[r]]
    ensures t.starts[r].evidence == s.starts[r].evidence
    ensures StandingOf(t.starts[r].pc) == if Intact(s, s.starts[r].evidence) then Cleared else Condemned
  {
    LiveEvidenceIsGrounded(cfg, s, r);
  }

  lemma FinalStanding(s: State, t: State, r: Id)
    requires FinalizeRunStep(s, t, r) && StartOk(s, r)
    ensures t.starts == s.starts[r := t.starts[r]] && t.starts[r].evidence == s.starts[r].evidence
    ensures StandingOf(t.starts[r].pc) == StandingOf(s.starts[r].pc) || StandingOf(t.starts[r].pc).Forgotten?
  {
  }

  lemma OtherStanding(s: State, t: State, r: Id, step: StartStep)
    requires StartNext(s, t, r, step) && r in s.starts && StartOk(s, r) && !step.VerifyEvidence?
    ensures r in t.starts && t.starts[r].evidence == s.starts[r].evidence
    ensures step.EvidenceUnreadable? ==>
              StandingOf(s.starts[r].pc).Unverified? && StandingOf(t.starts[r].pc).Condemned?
    ensures !step.EvidenceUnreadable? ==>
              StandingOf(t.starts[r].pc) == StandingOf(s.starts[r].pc) || StandingOf(t.starts[r].pc).Forgotten?
  {
    if step.FinalizeRun? { FinalStanding(s, t, r); }
  }

  lemma OwnStandingStep(cfg: Config, s: State, t: State, r: Id, step: StartStep)
    requires Inv(cfg, s) && StartNext(s, t, r, step) && r in s.starts
    ensures r in t.starts && t.starts[r].evidence == s.starts[r].evidence
    ensures var before, after, v, e :=
        StandingOf(s.starts[r].pc), StandingOf(t.starts[r].pc), OfStart(r, step), s.starts[r].evidence;
      && (Clears(s, v, r, e) ==> before.Unverified? && after.Cleared?)
      && (Condemns(s, v, r, e) ==> before.Unverified? && after.Condemned?)
      && (!Clears(s, v, r, e) && !Condemns(s, v, r, e) ==> after == before || after.Forgotten?)
  {
    assert StartOk(s, r);
    if step.VerifyEvidence? { VerificationStanding(cfg, s, t, r); } else { OtherStanding(s, t, r, step); }
  }

  ghost predicate EverCleared(events: seq<Event>, states: seq<State>, i: nat, r: Id, e: Id)
    requires i <= |events| && i <= |states|
  {
    exists k {:trigger Clears(states[k], events[k], r, e)} :: 0 <= k < i && Clears(states[k], events[k], r, e)
  }

  ghost predicate EverCondemned(events: seq<Event>, states: seq<State>, i: nat, r: Id, e: Id)
    requires i <= |events| && i <= |states|
  {
    exists k {:trigger Condemns(states[k], events[k], r, e)} :: 0 <= k < i && Condemns(states[k], events[k], r, e)
  }

  lemma StandingStep(cfg: Config, events: seq<Event>, states: seq<State>, k: nat, r: Id)
    requires Behavior(cfg, events, states) && k < |events|
    ensures r in states[k].starts ==>
              && r in states[k + 1].starts && states[k + 1].starts[r].evidence == states[k].starts[r].evidence
              && var before, after := StandingOf(states[k].starts[r].pc), StandingOf(states[k + 1].starts[r].pc);
                 var e := states[k].starts[r].evidence;
                 && (Clears(states[k], events[k], r, e) ==> before.Unverified? && after.Cleared?)
                 && (Condemns(states[k], events[k], r, e) ==> before.Unverified? && after.Condemned?)
                 && (!Clears(states[k], events[k], r, e) && !Condemns(states[k], events[k], r, e) ==>
                       after == before || after.Forgotten?)
    ensures r !in states[k].starts ==>
              && events[k] != OfStart(r, VerifyEvidence) && events[k] != OfStart(r, EvidenceUnreadable)
              && (r in states[k + 1].starts ==> StandingOf(states[k + 1].starts[r].pc).Unverified?)
  {
    var s, t, v := states[k], states[k + 1], events[k];
    EveryStateOk(cfg, events, states, k);
    assert StepAt(cfg, events, states, k);
    if r in s.starts {
      if RunTheorems.OwnEvent(v, r) {
        OwnStandingStep(cfg, s, t, r, v.start);
      } else {
        RunTheorems.OthersLeaveStartsAlone(cfg, s, t, v, r);
      }
    } else if !RunTheorems.OwnEvent(v, r) && r in t.starts {
      RunTheorems.StartCameBefore(cfg, s, t, v, r);
    }
  }

  /** The counter's memory is right: it tells which of the two verdicts there ever was. */
  lemma {:induction false} StandingIsRight(cfg: Config, events: seq<Event>, states: seq<State>, i: nat, r: Id, e: Id)
    requires Behavior(cfg, events, states) && i < |states|
    requires r in states[i].starts ==> e == states[i].starts[r].evidence
    ensures !(EverCleared(events, states, i, r, e) && EverCondemned(events, states, i, r, e))
    ensures r !in states[i].starts ==> !EverCleared(events, states, i, r, e) && !EverCondemned(events, states, i, r, e)
    ensures r in states[i].starts ==>
              match StandingOf(states[i].starts[r].pc)
              case Unverified => !EverCleared(events, states, i, r, e) && !EverCondemned(events, states, i, r, e)
              case Cleared => EverCleared(events, states, i, r, e)
              case Condemned => EverCondemned(events, states, i, r, e)
              case Forgotten => true
  {
    if i > 0 {
      StandingStep(cfg, events, states, i - 1, r);
      StandingIsRight(cfg, events, states, i - 1, r, e);
      EverOnward(events, states, i - 1, r, e);
    }
  }

  lemma EverOnward(events: seq<Event>, states: seq<State>, i: nat, r: Id, e: Id)
    requires i < |events| && i < |states|
    ensures EverCleared(events, states, i + 1, r, e) <==>
              EverCleared(events, states, i, r, e) || Clears(states[i], events[i], r, e)
    ensures EverCondemned(events, states, i + 1, r, e) <==>
              EverCondemned(events, states, i, r, e) || Condemns(states[i], events[i], r, e)
  {
  }

  /**
   * The integrity verdict of a terminal run is earned: its document says verified exactly when
   * verification once found the evidence intact, and the run is REFUSED exactly when verification
   * could not read it or found it otherwise. It never did both.
   */
  lemma VerdictsAreEarned(cfg: Config, events: seq<Event>, states: seq<State>, i: nat, r: Id)
    requires Behavior(cfg, events, states) && i < |states|
    requires r in states[i].db.runs && states[i].db.runs[r].terminal.Some?
    ensures var row := states[i].db.runs[r];
      && (row.terminal.value.verified <==>
            exists k :: 0 <= k < i && events[k] == OfStart(r, VerifyEvidence) && Intact(states[k], row.evidence))
      && (row.status.REFUSED? <==>
            exists k :: 0 <= k < i && (events[k] == OfStart(r, EvidenceUnreadable) ||
                                       (events[k] == OfStart(r, VerifyEvidence) && !Intact(states[k], row.evidence))))
  {
    EveryStateOk(cfg, events, states, i);
    var s, row := states[i], states[i].db.runs[r];
    assert RunFacts(s, r) && StartOk(s, r) && RunRowOk(row, s.db.assets);
    StandingIsRight(cfg, events, states, i, r, row.evidence);
    var e := row.evidence;
    if k :| 0 <= k < i && Clears(states[k], events[k], r, e) {
      assert events[k] == OfStart(r, VerifyEvidence) && Intact(states[k], e);
    }
    if k :| 0 <= k < i && events[k] == OfStart(r, VerifyEvidence) && Intact(states[k], e) {
      assert Clears(states[k], events[k], r, e);
    }
    if k :| 0 <= k < i && Condemns(states[k], events[k], r, e) {
      assert events[k] == OfStart(r, EvidenceUnreadable) ||
             (events[k] == OfStart(r, VerifyEvidence) && !Intact(states[k], e));
    }
    if k :| 0 <= k < i && (events[k] == OfStart(r, EvidenceUnreadable) ||
                           (events[k] == OfStart(r, VerifyEvidence) && !Intact(states[k], e))) {
      assert Condemns(states[k], events[k], r, e);
    }
  }

  // ---------------------------------------------------------------- what a finished run was finished with

  /** Analysis of run `r` went through with a plan of this status. */
  ghost predicate Planned(v: Event, r: Id, status: RunStatus) {
    v.OfStart? && v.r == r && v.start.Analyze? && v.start.plan.Some? && v.start.plan.value.status == status
  }

  /** The status that a start is about to record, or has recorded, for a successful analysis. */
  function PlannedStatus(pc: StartPc): Option<RunStatus> {
    match pc
    case Finishing(plan) => Some(plan.status)
    case Ended(Returned(status)) => if status in {COMPLETED, PARTIAL} then Some(status) else None
    case _ => None
  }

  lemma FinalPlanStep(s: State, t: State, r: Id)
    requires FinalizeRunStep(s, t, r) && StartOk(s, r) && PlannedStatus(t.starts[r].pc).Some?
    ensures PlannedStatus(s.starts[r].pc) == PlannedStatus(t.starts[r].pc)
  {
  }

  lemma OwnPlanStep(cfg: Config, s: State, t: State, r: Id, step: StartStep)
    requires Inv(cfg, s) && StartNext(s, t, r, step) && (r in s.starts ==> StartOk(s, r))
    ensures r in t.starts
    ensures PlannedStatus(t.starts[r].pc).Some? ==>
              || (r in s.starts && PlannedStatus(s.starts[r].pc) == PlannedStatus(t.starts[r].pc))
              || Planned(OfStart(r, step), r, PlannedStatus(t.starts[r].pc).value)
  {
    if step.FinalizeRun? {
      if PlannedStatus(t.starts[r].pc).Some? { FinalPlanStep(s, t, r); }
    }
  }

  lemma {:induction false} PlansAreEarned(cfg: Config, events: seq<Event>, states: seq<State>, i: nat, r: Id)
    requires Behavior(cfg, events, states) && i < |states|
    requires r in states[i].starts && PlannedStatus(states[i].starts[r].pc).Some?
    ensures exists k {:trigger events[k]} ::
              0 <= k < i && Planned(events[k], r, PlannedStatus(states[i].starts[r].pc).value)
  {
    if i > 0 {
      var s, t, v := states[i - 1], states[i], events[i - 1];
      EveryStateOk(cfg, events, states, i - 1);
      assert StepAt(cfg, events, states, i - 1);
      if RunTheorems.OwnEvent(v, r) {
        if r in s.starts { assert StartOk(s, r); }
        OwnPlanStep(cfg, s, t, r, v.start);
      } else {
        RunTheorems.StartCameBefore(cfg, s, t, v, r);
        RunTheorems.OthersLeaveStartsAlone(cfg, s, t, v, r);
      }
      if r in s.starts && PlannedStatus(s.starts[r].pc) == PlannedStatus(t.starts[r].pc) {
        PlansAreEarned(cfg, events, states, i - 1, r);
      } else {
        assert Planned(v, r, PlannedStatus(t.starts[r].pc).value);
      }
    }
  }

  /** A run is COMPLETED or PARTIAL only because its analysis went through with exactly that status. */
  lemma FinishedAsPlanned(cfg: Config, events: seq<Event>, states: seq<State>, i: nat, r: Id)
    requires Behavior(cfg, events, states) && i < |states| && r in states[i].db.runs
    requires states[i].db.runs[r].status in {COMPLETED, PARTIAL}
    ensures exists k {:trigger events[k]} :: 0 <= k < i && Planned(events[k], r, states[i].db.runs[r].status)
  {
    EveryStateOk(cfg, events, states, i);
    assert RunFacts(states[i], r) && StartOk(states[i], r);
    PlansAreEarned(cfg, events, states, i, r);
  }

  // ---------------------------------------------------------------- starts that are turned away

  /** After its insert was refused, start `r` saw an unfinished run of the same evidence. */
  ghost predicate SeesActive(s: State, v: Event, r: Id) {
    && v == OfStart(r, QueryActive) && r in s.starts
    && exists q :: q in s.db.runs && s.db.runs[q].status.RUNNING? && s.db.runs[q].evidence == s.starts[r].evidence &&
                   s.db.runs[q].profile == ANALYSIS_PROFILE
  }

  predicate TurnedAway(s: State, r: Id) {
    r in s.starts && s.starts[r].pc == Ended(ActiveElsewhere)
  }

  lemma TurnedAwayStep(s: State, t: State, r: Id, step: StartStep)
    requires StartNext(s, t, r, step)
    ensures TurnedAway(t, r) <==>
              TurnedAway(s, r) || (SeesActive(s, OfStart(r, step), r) && s.starts[r].pc.Querying?)
  {
  }

  /** A start is told that another run is active exactly when it saw one, unfinished, on its evidence. */
  lemma {:induction false} TurnedAwayRightly(cfg: Config, events: seq<Event>, states: seq<State>, i: nat, r: Id)
    requires Behavior(cfg, events, states) && i < |states|
    ensures TurnedAway(states[i], r) <==> exists k :: 0 <= k < i && SeesActive(states[k], events[k], r)
  {
    if i > 0 {
      var s, t, v := states[i - 1], states[i], events[i - 1];
      TurnedAwayRightly(cfg, events, states, i - 1, r);
      assert StepAt(cfg, events, states, i - 1);
      if RunTheorems.OwnEvent(v, r) {
        TurnedAwayStep(s, t, r, v.start);
      } else if r in s.starts {
        RunTheorems.OthersLeaveStartsAlone(cfg, s, t, v, r);
      } else if r in t.starts {
        RunTheorems.StartCameBefore(cfg, s, t, v, r);
      }
    }
  }

  // ---------------------------------------------------------------- uploads

  /** The final check of upload `r` sees its object, with the measured length. */
  ghost predicate ChecksOut(s: State, v: Event, r: Id) {
    && v == OfIngest(r, CheckObject) && r in s.ingests && s.ingests[r].pc.Checking?
    && var m := s.ingests[r].pc.m;
       m.sha256 in s.objects && s.objects[m.sha256] in s.files && |s.files[s.objects[m.sha256]]| == m.byteLength
  }

  lemma IngestCheckStep(cfg: Config, s: State, t: State, q: Id, step: IngestStep, r: Id)
    requires IngestNext(cfg, s, t, q, step)
    ensures Answered(t, r) <==> Answered(s, r) || ChecksOut(s, OfIngest(q, step), r)
  {
  }

  lemma CheckAt(cfg: Config, events: seq<Event>, states: seq<State>, k: nat, r: Id)
    requires Behavior(cfg, events, states) && k < |events|
    ensures Answered(states[k + 1], r) <==> Answered(states[k], r) || ChecksOut(states[k], events[k], r)
  {
    assert StepAt(cfg, events, states, k);
    match events[k] {
      case OfIngest(q, step) => IngestCheckStep(cfg, states[k], states[k + 1], q, step, r);
      case OfStart(q, step) => StartAssociations(states[k], states[k + 1], q, step);
      case _ =>
    }
  }

  /** An upload is accepted exactly through a final check that saw its object with its length. */
  lemma {:induction false} AcceptedByCheck(cfg: Config, events: seq<Event>, states: seq<State>, i: nat, r: Id)
    requires Behavior(cfg, events, states) && i < |states|
    ensures Answered(states[i], r) <==> exists k :: 0 <= k < i && ChecksOut(states[k], events[k], r)
  {
    if i > 0 {
      CheckAt(cfg, events, states, i - 1, r);
      AcceptedByCheck(cfg, events, states, i - 1, r);
    }
  }

  /** Why an upload was or will be refused. */
  function RejectionOf(pc: IngestPc): Option<Rejection> {
    match pc
    case Unlinking(put) => if put.Rejected? then Some(put.why) else None
    case Littered(put) => if put.Rejected? then Some(put.why) else None
    case Refused(why) => Some(why)
    case _ => None
  }

  /** The step of upload `r` that calls for this rejection. */
  ghost predicate Causes(cfg: Config, s: State, v: Event, r: Id, why: Rejection) {
    && v.OfIngest? && v.r == r
    && match why
       case CASE_NOT_FOUND => v.ingest.Begin? && v.ingest.c !in s.db.cases
       case UPLOAD_TOO_LARGE => v.ingest.Chunk? && r in s.files && |s.files[r]| + |v.ingest.data| > cfg.maxUpload
       case EMPTY_EVIDENCE => v.ingest.EndOfStream? && r in s.files && s.files[r] == []
       case UNSUPPORTED_MEDIA_TYPE =>
         && v.ingest.EndOfStream? && r in s.files && s.files[r] != []
         && (DetectMediaType(s.files[r]).None? || DetectMediaType(s.files[r]).value !in cfg.allowed)
       case UPLOAD_INTERRUPTED => v.ingest.ReadFault?
       case STORAGE_UNAVAILABLE => v.ingest.WriteFault? || v.ingest.LinkFault?
       case OBJECT_MISMATCH =>
         || v.ingest.ExistingUnreadable?
         || (&& v.ingest.VerifyExisting? && r in s.files
             && !exists h :: && h in s.objects && s.objects[h] in s.files && h == Sha256(s.files[r])
                             && s.files[s.objects[h]] == s.files[r])
  }

  lemma EndOfStreamRejection(cfg: Config, s: State, t: State, r: Id)
    requires EndOfStreamStep(cfg, s, t, r) && IngestOk(cfg, s, r) && RejectionOf(t.ingests[r].pc).Some?
    ensures Causes(cfg, s, OfIngest(r, EndOfStream), r, RejectionOf(t.ingests[r].pc).value)
  {
    OnlyTheSignatureMatters(s.files[r]);
  }

  lemma VerifyRejection(cfg: Config, s: State, t: State, r: Id)
    requires VerifyExistingStep(s, t, r) && IngestOk(cfg, s, r) && RejectionOf(t.ingests[r].pc).Some?
    ensures Causes(cfg, s, OfIngest(r, VerifyExisting), r, RejectionOf(t.ingests[r].pc).value)
  {
    var m := s.ingests[r].pc.m;
    assert m.sha256 == Sha256(s.files[r]) && m.sha512 == Sha512(s.files[r]) && m.byteLength == |s.files[r]|;
  }

  lemma StagingRejection(cfg: Config, s: State, t: State, r: Id, step: IngestStep)
    requires IngestNext(cfg, s, t, r, step) && (r in s.ingests ==> IngestOk(cfg, s, r))
    requires step.Begin? || step.Chunk? || step.ReadFault? || step.WriteFault?
    ensures r in t.ingests
    ensures RejectionOf(t.ingests[r].pc).Some? ==>
              Causes(cfg, s, OfIngest(r, step), r, RejectionOf(t.ingests[r].pc).value)
  {
  }

  lemma PlainRejection(cfg: Config, s: State, t: State, r: Id, step: IngestStep)
    requires IngestNext(cfg, s, t, r, step)
    requires !step.Begin? && !step.Chunk? && !step.ReadFault? && !step.WriteFault?
    requires !step.EndOfStream? && !step.VerifyExisting?
    ensures r in t.ingests && r in s.ingests
    ensures RejectionOf(t.ingests[r].pc).Some? ==>
              || RejectionOf(s.ingests[r].pc) == RejectionOf(t.ingests[r].pc)
              || (step.LinkFault? && RejectionOf(t.ingests[r].pc) == Some(STORAGE_UNAVAILABLE))
              || (step.ExistingUnreadable? && RejectionOf(t.ingests[r].pc) == Some(OBJECT_MISMATCH))
  {
  }

  lemma RejectionStep(cfg: Config, s: State, t: State, r: Id, step: IngestStep)
    requires IngestNext(cfg, s, t, r, step) && (r in s.ingests ==> IngestOk(cfg, s, r))
    requires r in t.ingests && RejectionOf(t.ingests[r].pc).Some?
    ensures || (r in s.ingests && RejectionOf(s.ingests[r].pc) == RejectionOf(t.ingests[r].pc))
            || Causes(cfg, s, OfIngest(r, step), r, RejectionOf(t.ingests[r].pc).value)
  {
    if step.EndOfStream? {
      EndOfStreamRejection(cfg, s, t, r);
    } else if step.VerifyExisting? {
      VerifyRejection(cfg, s, t, r);
    } else if step.Begin? || step.Chunk? || step.ReadFault? || step.WriteFault? {
      StagingRejection(cfg, s, t, r, step);
    } else {
      PlainRejection(cfg, s, t, r, step);
    }
  }

  /** No step of another request moves an upload. */
  lemma OthersLeaveIngestsAlone(cfg: Config, s: State, t: State, v: Event, r: Id)
    requires Next(cfg, s, v, t) && !(v.OfIngest? && v.r == r)
    ensures r in t.ingests <==> r in s.ingests
    ensures r in s.ingests ==> t.ingests[r] == s.ingests[r]
  {
    match v {
      case OfIngest(q, step) => OtherIngestStep(cfg, s, t, q, step, r);
      case OfStart(q, step) => StartAssociations(s, t, q, step);
      case _ =>
    }
  }

  lemma OtherIngestStep(cfg: Config, s: State, t: State, q: Id, step: IngestStep, r: Id)
    requires IngestNext(cfg, s, t, q, step) && q != r
    ensures r in t.ingests <==> r in s.ingests
    ensures r in s.ingests ==> t.ingests[r] == s.ingests[r]
  {
  }

  lemma RejectionAt(cfg: Config, events: seq<Event>, states: seq<State>, k: nat, r: Id)
    requires Behavior(cfg, events, states) && k < |events|
    requires r in states[k + 1].ingests && RejectionOf(states[k + 1].ingests[r].pc).Some?
    ensures || (r in states[k].ingests &&
                RejectionOf(states[k].ingests[r].pc) == RejectionOf(states[k + 1].ingests[r].pc))
            || Causes(cfg, states[k], events[k], r, RejectionOf(states[k + 1].ingests[r].pc).value)
  {
    var s, t, v := states[k], states[k + 1], events[k];
    EveryStateOk(cfg, events, states, k);
    assert StepAt(cfg, events, states, k);
    if v.OfIngest? && v.r == r {
      assert r in s.ingests ==> IngestOk(cfg, s, r);
      RejectionStep(cfg, s, t, r, v.ingest);
    } else {
      OthersLeaveIngestsAlone(cfg, s, t, v, r);
    }
  }

  /** Every refusal goes back to a step that called for exactly this one. */
  lemma {:induction false} RefusalsAreEarned(cfg: Config, events: seq<Event>, states: seq<State>, i: nat, r: Id)
    requires Behavior(cfg, events, states) && i < |states|
    requires r in states[i].ingests && RejectionOf(states[i].ingests[r].pc).Some?
    ensures exists k :: 0 <= k < i &&
              Causes(cfg, states[k], events[k], r, RejectionOf(states[i].ingests[r].pc).value)
  {
    if i > 0 {
      RejectionAt(cfg, events, states, i - 1, r);
      if !Causes(cfg, states[i - 1], events[i - 1], r, RejectionOf(states[i].ingests[r].pc).value) {
        RefusalsAreEarned(cfg, events, states, i - 1, r);
      }
    }
  }

  // ---------------------------------------------------------------- consistency failures

  /** The final check of upload `r` fails: its object is not there with its length, or cannot be inspected. */
  ghost predicate FailsCheck(s: State, v: Event, r: Id) {
    && r in s.ingests && s.ingests[r].pc.Checking?
    && (|| v == OfIngest(r, CheckFault)
        || (v == OfIngest(r, CheckObject) && !ChecksOut(s, v, r)))
  }

  predicate Failing(pc: IngestPc) {
    pc.Undoing? || pc.Deleting? || pc.Inconsistent?
  }

  lemma FailureStep(cfg: Config, s: State, t: State, r: Id, step: IngestStep)
    requires IngestNext(cfg, s, t, r, step)
    ensures r in t.ingests
    ensures Failing(t.ingests[r].pc) <==>
              (r in s.ingests && Failing(s.ingests[r].pc)) || FailsCheck(s, OfIngest(r, step), r)
  {
  }

  /** An upload is taken back, or answered with a consistency failure, exactly when its final check failed. */
  lemma {:induction false} FailuresAreEarned(cfg: Config, events: seq<Event>, states: seq<State>, i: nat, r: Id)
    requires Behavior(cfg, events, states) && i < |states|
    ensures r in states[i].ingests && Failing(states[i].ingests[r].pc) <==>
              exists k :: 0 <= k < i && FailsCheck(states[k], events[k], r)
  {
    if i > 0 {
      var s, t, v := states[i - 1], states[i], events[i - 1];
      FailuresAreEarned(cfg, events, states, i - 1, r);
      assert StepAt(cfg, events, states, i - 1);
      if v.OfIngest? && v.r == r {
        FailureStep(cfg, s, t, r, v.ingest);
      } else {
        OthersLeaveIngestsAlone(cfg, s, t, v, r);
      }
    }
  }
}
