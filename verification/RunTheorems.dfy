/** What holds of structural runs over every run of the system, under every interleaving. */
module RunTheorems {
  import opened Prelude
  import opened Tables
  import opened IntakeSystem
  import opened IntakeInvariant

  /**
   * In every reachable state: at most one RUNNING run per evidence and profile; the terminal
   * document is null exactly while RUNNING and carries the stored status; a report exists
   * exactly for COMPLETED and PARTIAL runs; every terminal run but a REFUSED one had its
   * integrity VERIFIED; a run is REFUSED only after outside deletion or a failed look.
   */
  lemma RunsAgree(cfg: Config, events: seq<Event>, states: seq<State>, i: nat)
    requires Behavior(cfg, events, states) && i < |states|
    ensures var t := states[i].db;
      && (forall q, r :: q in t.runs && r in t.runs && SameActive(t.runs[q], t.runs[r]) ==> q == r)
      && (forall r :: r in t.runs ==>
            && (t.runs[r].terminal.None? <==> t.runs[r].status.RUNNING?)
            && (t.runs[r].terminal.Some? ==>
                  && t.runs[r].terminal.value.status == t.runs[r].status
                  && (t.runs[r].terminal.value.verified <==> !t.runs[r].status.REFUSED?))
            && (r in t.reports <==> t.runs[r].status.COMPLETED? || t.runs[r].status.PARTIAL?)
            && (t.runs[r].status.REFUSED? ==> !Calm(states[i])))
  {
    EveryStateOk(cfg, events, states, i);
    var s := states[i];
    forall r | r in s.db.runs ensures RunFacts(s, r) && RunRowOk(s.db.runs[r], s.db.assets) {}
  }

  // ---------------------------------------------------------------- which steps touch runs

  lemma IngestLeavesRuns(cfg: Config, s: State, t: State, r: Id, step: IngestStep)
    requires IngestNext(cfg, s, t, r, step)
    ensures t.starts == s.starts && t.db.runs == s.db.runs && t.db.reports == s.db.reports
  {
    if step.CommitRecord? {
      assert CommitRecordStep(cfg, s, t, r);
    } else if step.CommitUndo? {
      assert CommitUndoStep(s, t, r);
    } else {
      assert t.db == s.db;
    }
  }

  /** The step of start `q` moves only that start. */
  ghost predicate Moved(s: State, t: State, q: Id) {
    q in t.starts && t.starts == s.starts[q := t.starts[q]]
  }

  lemma StartMoves(s: State, t: State, q: Id, step: StartStep)
    requires StartNext(s, t, q, step)
    ensures Moved(s, t, q) && (t.db == s.db || step.InsertRun? || step.FinalizeRun?)
  {
  }

  /** No step of another request moves a start. */
  lemma OthersLeaveStartsAlone(cfg: Config, s: State, t: State, e: Event, r: Id)
    requires Next(cfg, s, e, t) && r in s.starts && !OwnEvent(e, r)
    ensures r in t.starts && t.starts[r] == s.starts[r]
  {
    match e {
      case OfIngest(q, step) => IngestLeavesRuns(cfg, s, t, q, step);
      case OfStart(q, step) => StartMoves(s, t, q, step);
      case _ =>
    }
  }

  /** A step of the system changes a run at most by finalizing it, and adds reports only then. */
  ghost predicate RunOnward(t: Tables, u: Tables, r: Id)
    requires r in t.runs
  {
    && r in u.runs
    && (Terminal(t, r) ==> u.runs[r] == t.runs[r])
    && (r in t.reports ==> r in u.reports && u.reports[r] == t.reports[r])
    && (u.runs[r] == t.runs[r] || !u.runs[r].status.RUNNING?)
  }

  lemma InsertOnward(s: State, t: State, q: Id, r: Id)
    requires InsertRunStep(s, t, q) && r in s.db.runs
    ensures RunOnward(s.db, t.db, r)
  {
  }

  lemma FinalizeOnward(s: State, t: State, q: Id, r: Id)
    requires FinalizeRunStep(s, t, q) && r in s.db.runs && StartOk(s, q) && ChildrenOk(s.db)
    ensures RunOnward(s.db, t.db, r)
  {
    var tx := FinalizeArgs(s, q);
    if FinalizeAttempt(s, q).Finalized? { FinalizedRowsOnward(s.db, q, tx.doc, tx.tests, tx.artifacts, tx.report, r); }
  }

  lemma FinalizedRowsOnward(t: Tables, q: Id, doc: RunDoc, tests: seq<string>, artifacts: seq<string>,
                            report: Option<ReportRow>,
                            r: Id)
    requires Finalize(t, q, doc, tests, artifacts, report).Finalized? && ChildrenOk(t) && r in t.runs
    requires !doc.status.RUNNING?
    ensures RunOnward(t, Finalize(t, q, doc, tests, artifacts, report).t, r)
  {
  }

  lemma RunStepOnward(cfg: Config, s: State, t: State, e: Event, r: Id)
    requires Inv(cfg, s) && Next(cfg, s, e, t) && r in s.db.runs
    ensures RunOnward(s.db, t.db, r)
  {
    match e {
      case OfIngest(q, step) => IngestLeavesRuns(cfg, s, t, q, step);
      case OfStart(q, step) =>
        if step.InsertRun? {
          InsertOnward(s, t, q, r);
        } else if step.FinalizeRun? {
          assert StartOk(s, q);
          FinalizeOnward(s, t, q, r);
        } else {
          StartMoves(s, t, q, step);
        }
      case _ =>
    }
  }

  lemma BehaviorRunOnward(cfg: Config, events: seq<Event>, states: seq<State>, i: nat, r: Id)
    requires Behavior(cfg, events, states) && i < |events| && r in states[i].db.runs
    ensures RunOnward(states[i].db, states[i + 1].db, r)
  {
    EveryStateOk(cfg, events, states, i);
    assert StepAt(cfg, events, states, i);
    RunStepOnward(cfg, states[i], states[i + 1], events[i], r);
  }

  /** A run leaves RUNNING at most once: its terminal row and its report never change again. */
  lemma {:induction false} TerminalForGood(cfg: Config, events: seq<Event>, states: seq<State>, i: nat, j: nat, r: Id)
    requires Behavior(cfg, events, states) && i <= j < |states| && r in states[i].db.runs
    ensures r in states[j].db.runs
    ensures Terminal(states[i].db, r) ==> states[j].db.runs[r] == states[i].db.runs[r]
    ensures r in states[i].db.reports ==>
              r in states[j].db.reports && states[j].db.reports[r] == states[i].db.reports[r]
    decreases j - i
  {
    if i < j {
      TerminalForGood(cfg, events, states, i, j - 1, r);
      BehaviorRunOnward(cfg, events, states, j - 1, r);
    }
  }

  // ---------------------------------------------------------------- progress

  predicate OwnEvent(e: Event, r: Id) {
    e.OfStart? && e.r == r
  }

  /** The events that can take a run's end away from its start. */
  predicate FaultOf(e: Event, r: Id) {
    OwnEvent(e, r) && (e.start.StartDatabaseFault? || e.start.ClockFault?)
  }

  /** Fault-free steps that a start still has to take. */
  function Rank(pc: StartPc): nat {
    match pc
    case Creating(_) => 6
    case Querying => 1
    case Verifying(_) => 5
    case Analyzing => 4
    case Finishing(_) => 3
    case RecordingFailure => 2
    case RecordingRefusal => 2
    case Ended(_) => 0
  }

  /** The next step of a live start, whatever its adapters, rendering and storage do. */
  function OwnStep(pc: StartPc, plan: Option<Plan>): StartStep
    requires RunLive(pc)
  {
    if pc.Verifying? then VerifyEvidence else if pc.Analyzing? then Analyze(plan) else FinalizeRun
  }

  /** Where a live start stands after one more step of its own. */
  ghost predicate Advanced(s: State, t: State, r: Id)
    requires r in s.starts
  {
    && r in t.starts && Rank(t.starts[r].pc) < Rank(s.starts[r].pc)
    && (RunLive(t.starts[r].pc) || Concluded(t, r))
  }

  /** The start has answered with the terminal status of its run. */
  ghost predicate Concluded(s: State, r: Id)
    requires r in s.starts
  {
    Terminal(s.db, r) && s.starts[r].pc == Ended(Returned(s.db.runs[r].status))
  }

  /** A live run has no rows under it yet, so one result without artifacts or report always fits. */
  lemma FailureIsRecordable(s: State, r: Id)
    requires RunsConsistent(s.db) && r in s.starts && StartOk(s, r)
    requires s.starts[r].pc.RecordingFailure? || s.starts[r].pc.RecordingRefusal?
    ensures FinalizeAttempt(s, r).Finalized?
  {
    var tx := FinalizeArgs(s, r);
    assert forall x :: x in RowsOf(r, tx.tests) ==> x.0 == r;
    assert forall x :: x in RowsOf(r, tx.artifacts) ==> x.0 == r;
    assert FinalizeAllowed(s.db, r, tx.tests, tx.artifacts, tx.report);
  }

  /** A success with unique tests and artifacts and a report is recorded too. */
  lemma SuccessIsRecordable(s: State, r: Id)
    requires Consistent(s.db) && r in s.starts && StartOk(s, r) && s.starts[r].pc.Finishing?
    requires Distinct(s.starts[r].pc.plan.tests) && Distinct(s.starts[r].pc.plan.artifacts)
    ensures FinalizeAttempt(s, r).Finalized?
  {
    var tx := FinalizeArgs(s, r);
    assert forall x :: x in RowsOf(r, tx.tests) ==> x.0 == r;
    assert forall x :: x in RowsOf(r, tx.artifacts) ==> x.0 == r;
    assert RunRowOk(s.db.runs[r], s.db.assets);
  }

  lemma FinalizeAdvances(s: State, t: State, r: Id)
    requires RunsConsistent(s.db) && FinalizeRunStep(s, t, r) && StartOk(s, r)
    ensures Advanced(s, t, r)
  {
    if !s.starts[r].pc.Finishing? { FailureIsRecordable(s, r); }
  }

  /** Every fault-free step of a live start brings it closer to its end and never strands the run. */
  lemma OwnEventAdvances(s: State, t: State, r: Id, step: StartStep)
    requires RunsConsistent(s.db) && r in s.starts && StartOk(s, r) && RunLive(s.starts[r].pc)
    requires StartNext(s, t, r, step) && !step.StartDatabaseFault? && !step.ClockFault?
    ensures Advanced(s, t, r)
  {
    if step.FinalizeRun? { FinalizeAdvances(s, t, r); }
  }

  lemma OwnStepEnabled(s: State, r: Id, plan: Option<Plan>) returns (t: State)
    requires r in s.starts && RunLive(s.starts[r].pc)
    requires plan.Some? ==> plan.value.status.COMPLETED? || plan.value.status.PARTIAL?
    ensures StartNext(s, t, r, OwnStep(s.starts[r].pc, plan))
  {
    var pc := s.starts[r].pc;
    if pc.Verifying? {
      var verified := pc.sha256 in s.db.blobs && Matches(ObjectBytes(s, pc.sha256), s.db.blobs[pc.sha256]);
      t := s.(starts := StartGoto(s, r, if verified then Analyzing else RecordingRefusal));
    } else if pc.Analyzing? {
      t := s.(starts := StartGoto(s, r, if plan.Some? then Finishing(plan.value) else RecordingFailure));
    } else {
      var outcome := FinalizeAttempt(s, r);
      var next := if outcome.Finalized? then Ended(Returned(FinalizeArgs(s, r).doc.status))
                  else if pc.Finishing? then RecordingFailure
                  else Ended(Stranded);
      t := s.(starts := StartGoto(s, r, next), db := if outcome.Finalized? then outcome.t else s.db);
    }
  }

  /**
   * A start that created its run always has a next step, whatever its adapters, rendering and
   * storage do, and unless the database or the clock fails under it every step of its own brings
   * it closer to a terminal run.
   */
  lemma StartsAdvance(cfg: Config, events: seq<Event>, states: seq<State>, i: nat, r: Id, plan: Option<Plan>)
    requires Behavior(cfg, events, states) && i < |states|
    requires r in states[i].starts && RunLive(states[i].starts[r].pc)
    requires plan.Some? ==> plan.value.status.COMPLETED? || plan.value.status.PARTIAL?
    ensures exists t :: Next(cfg, states[i], OfStart(r, OwnStep(states[i].starts[r].pc, plan)), t)
    ensures forall step, t :: Next(cfg, states[i], OfStart(r, step), t) && !FaultOf(OfStart(r, step), r) ==>
              Advanced(states[i], t, r)
  {
    EveryStateOk(cfg, events, states, i);
    var s := states[i];
    assert StartOk(s, r);
    var t := OwnStepEnabled(s, r, plan);
    assert Next(cfg, s, OfStart(r, OwnStep(s.starts[r].pc, plan)), t);
    forall step, u | Next(cfg, s, OfStart(r, step), u) && !FaultOf(OfStart(r, step), r) ensures Advanced(s, u, r) {
      OwnEventAdvances(s, u, r, step);
    }
  }

  /** Steps of start `r` among the events from `i` up to `j`. */
  function OwnSteps(events: seq<Event>, i: nat, j: nat, r: Id): nat
    requires i <= j <= |events|
    decreases j - i
  {
    if i == j then 0 else OwnSteps(events, i, j - 1, r) + if OwnEvent(events[j - 1], r) then 1 else 0
  }

  lemma EndedStartsRest(s: State, t: State, r: Id, step: StartStep)
    requires r in s.starts && s.starts[r].pc.Ended?
    ensures !StartNext(s, t, r, step)
  {
  }

  /** The start is at work on its run, or has ended it. */
  ghost predicate OnTrack(s: State, r: Id) {
    r in s.starts && (RunLive(s.starts[r].pc) || Concluded(s, r))
  }

  function RankOf(s: State, r: Id): nat {
    if r in s.starts then Rank(s.starts[r].pc) else 0
  }

  /** One event of a run, as a start without faults of its own sees it. */
  lemma StartStepBound(cfg: Config, events: seq<Event>, states: seq<State>, j: nat, r: Id)
    requires Behavior(cfg, events, states) && j < |events| && !FaultOf(events[j], r) && OnTrack(states[j], r)
    ensures OnTrack(states[j + 1], r)
    ensures RankOf(states[j + 1], r) + (if OwnEvent(events[j], r) then 1 else 0) <= RankOf(states[j], r)
  {
    EveryStateOk(cfg, events, states, j);
    assert StepAt(cfg, events, states, j);
    var s, t := states[j], states[j + 1];
    if OwnEvent(events[j], r) {
      assert StartOk(s, r);
      if s.starts[r].pc.Ended? { EndedStartsRest(s, t, r, events[j].start); }
      OwnEventAdvances(s, t, r, events[j].start);
    } else {
      OthersLeaveStartsAlone(cfg, s, t, events[j], r);
      if Concluded(s, r) { RunStepOnward(cfg, s, t, events[j], r); }
    }
  }

  lemma {:induction false} OwnStepsCount(cfg: Config, events: seq<Event>, states: seq<State>, i: nat, j: nat, r: Id)
    requires Behavior(cfg, events, states) && i <= j < |states| && OnTrack(states[i], r)
    requires forall k :: i <= k < j ==> !FaultOf(events[k], r)
    ensures OnTrack(states[j], r) && RankOf(states[j], r) + OwnSteps(events, i, j, r) <= RankOf(states[i], r)
    decreases j - i
  {
    if i < j {
      OwnStepsCount(cfg, events, states, i, j - 1, r);
      StartStepBound(cfg, events, states, j - 1, r);
    }
  }

  /**
   * In any run of the system: once a start is live and has taken as many fault-free steps of its
   * own as its rank says, five at most, its run is terminal.
   */
  lemma StartsEnd(cfg: Config, events: seq<Event>, states: seq<State>, i: nat, j: nat, r: Id)
    requires Behavior(cfg, events, states) && i <= j < |states|
    requires r in states[i].starts && RunLive(states[i].starts[r].pc)
    requires forall k :: i <= k < j ==> !FaultOf(events[k], r)
    requires OwnSteps(events, i, j, r) >= Rank(states[i].starts[r].pc)
    ensures r in states[j].starts && Concluded(states[j], r)
    ensures Rank(states[i].starts[r].pc) <= 5
  {
    OwnStepsCount(cfg, events, states, i, j, r);
  }

  // ---------------------------------------------------------------- unfinished runs

  lemma StrandedStep(s: State, t: State, r: Id, step: StartStep)
    requires RunsConsistent(s.db) && StartNext(s, t, r, step) && (r in s.starts ==> StartOk(s, r))
    requires Abandoned(t.starts[r].pc)
    ensures step.StartDatabaseFault? || step.ClockFault?
  {
    if step.FinalizeRun? && !s.starts[r].pc.Finishing? { FailureIsRecordable(s, r); }
  }

  /** A start abandons its run only when the database failed, or the clock went back, under it. */
  lemma {:induction false} AbandonedByFault(cfg: Config, events: seq<Event>, states: seq<State>, i: nat, r: Id)
    requires Behavior(cfg, events, states) && i < |states|
    requires r in states[i].starts && Abandoned(states[i].starts[r].pc)
    ensures exists k :: 0 <= k < i && FaultOf(events[k], r)
  {
    if i > 0 {
      var s, t, e := states[i - 1], states[i], events[i - 1];
      assert StepAt(cfg, events, states, i - 1);
      if OwnEvent(e, r) {
        EveryStateOk(cfg, events, states, i - 1);
        if r in s.starts { assert StartOk(s, r); }
        StrandedStep(s, t, r, e.start);
        assert FaultOf(e, r);
      } else {
        StartCameBefore(cfg, s, t, e, r);
        OthersLeaveStartsAlone(cfg, s, t, e, r);
        AbandonedByFault(cfg, events, states, i - 1, r);
      }
    }
  }

  lemma StartCameBefore(cfg: Config, s: State, t: State, e: Event, r: Id)
    requires Next(cfg, s, e, t) && r in t.starts && !OwnEvent(e, r)
    ensures r in s.starts
  {
    match e {
      case OfIngest(q, step) => IngestLeavesRuns(cfg, s, t, q, step);
      case OfStart(q, step) => StartMoves(s, t, q, step);
      case _ =>
    }
  }

  /**
   * A RUNNING run is never abandoned for nothing: its start is still at work, or the database
   * failed or the clock went back under it.
   */
  lemma RunningRunsAreOwned(cfg: Config, events: seq<Event>, states: seq<State>, i: nat, r: Id)
    requires Behavior(cfg, events, states) && i < |states| && r in states[i].db.runs
    requires states[i].db.runs[r].status.RUNNING?
    ensures r in states[i].starts
    ensures RunLive(states[i].starts[r].pc) || exists k :: 0 <= k < i && FaultOf(events[k], r)
  {
    EveryStateOk(cfg, events, states, i);
    assert RunFacts(states[i], r) && StartOk(states[i], r);
    if Abandoned(states[i].starts[r].pc) { AbandonedByFault(cfg, events, states, i, r); }
  }

  /**
   * An abandoned run is abandoned for good: it stays RUNNING in every later state, and no start
   * of its evidence is ever let through again.
   */
  lemma {:induction false} AbandonedForGood(
    cfg: Config, events: seq<Event>, states: seq<State>, i: nat, j: nat, r: Id, q: Id)
    requires Behavior(cfg, events, states) && i <= j < |states|
    requires r in states[i].starts && Abandoned(states[i].starts[r].pc)
    ensures r in states[j].starts && states[j].starts[r] == states[i].starts[r]
    ensures r in states[j].db.runs && states[j].db.runs[r].status.RUNNING?
    ensures !RunAllowed(states[j].db, q, states[i].starts[r].caseId, states[i].starts[r].evidence, ANALYSIS_PROFILE)
    decreases j - i
  {
    if i < j {
      AbandonedForGood(cfg, events, states, i, j - 1, r, q);
      assert StepAt(cfg, events, states, j - 1);
      var s, t, e := states[j - 1], states[j], events[j - 1];
      if OwnEvent(e, r) { EndedStartsRest(s, t, r, e.start); }
      OthersLeaveStartsAlone(cfg, s, t, e, r);
    }
    EveryStateOk(cfg, events, states, j);
    assert StartOk(states[j], r);
    assert Active(states[j].db.runs[r], states[j].starts[r].evidence, ANALYSIS_PROFILE);
  }

  /**
   * A start is never turned away because of a finished run: the insert is refused only when its
   * evidence is gone, or while another start holds an unfinished run on the same evidence.
   */
  lemma FinishedRunsDoNotBlock(cfg: Config, events: seq<Event>, states: seq<State>, i: nat, r: Id)
    requires Behavior(cfg, events, states) && i < |states|
    requires r in states[i].starts && states[i].starts[r].pc.Creating?
    requires !RunAllowed(states[i].db, r, states[i].starts[r].caseId, states[i].starts[r].evidence, ANALYSIS_PROFILE)
    ensures || states[i].starts[r].evidence !in states[i].db.assets
            || (exists q :: && q in states[i].starts && q != r
                            && states[i].starts[q].evidence == states[i].starts[r].evidence
                            && (RunLive(states[i].starts[q].pc) || Abandoned(states[i].starts[q].pc)))
  {
    EveryStateOk(cfg, events, states, i);
    var s := states[i];
    var Start(c, e, _) := s.starts[r];
    assert StartOk(s, r);
    if e in s.db.assets {
      assert AssetOk(s, e);
      var q :| q in s.db.runs && Active(s.db.runs[q], e, ANALYSIS_PROFILE);
      assert RunFacts(s, q) && StartOk(s, q);
    }
  }
}
