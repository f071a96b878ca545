/** What one request sees of all others over a run of the system, as the repository's operations take it. */
module Interleaving {
  import opened Prelude
  import opened MediaTypes
  import opened Tables
  import opened IntakeSystem
  import opened IntakeInvariant
  import opened IntakeTheorems
  import RunTheorems
  import opened Repository

  /** The rows of a state, with every association ever committed. */
  function View(s: State): Shared {
    Shared(s.db, s.minted)
  }

  /** The event is a step of request `r`. */
  predicate StepOf(e: Event, r: Id) {
    (e.OfIngest? || e.OfStart?) && e.r == r
  }

  /** Only the start that a run is named after inserts or ends it. */
  lemma StartTouchesOwnRun(s: State, t: State, q: Id, step: StartStep)
    requires StartNext(s, t, q, step) && (q in s.db.runs && step.FinalizeRun? ==> s.db.runs[q].status.RUNNING?)
    requires step.InsertRun? ==> q !in s.db.runs
    ensures forall r :: r in t.db.runs && r != q ==> r in s.db.runs && t.db.runs[r] == s.db.runs[r]
    ensures forall r :: r in s.db.runs ==> r in t.db.runs && SameRun(s.db.runs[r], t.db.runs[r])
  {
  }

  lemma RunsAt(cfg: Config, events: seq<Event>, states: seq<State>, k: nat, mine: Id)
    requires Behavior(cfg, events, states) && k < |events| && !StepOf(events[k], mine)
    ensures var t, u := states[k].db, states[k + 1].db;
      && (mine in u.runs ==> mine in t.runs && u.runs[mine] == t.runs[mine])
      && (forall r :: r in t.runs ==> r in u.runs && SameRun(t.runs[r], u.runs[r]))
      && (forall r :: r in t.reports ==> r in u.reports && u.reports[r] == t.reports[r])
  {
    var s, t, e := states[k], states[k + 1], events[k];
    EveryStateOk(cfg, events, states, k);
    assert StepAt(cfg, events, states, k);
    match e {
      case OfIngest(q, step) => RunTheorems.IngestLeavesRuns(cfg, s, t, q, step);
      case OfStart(q, step) =>
        assert q in s.starts ==> StartOk(s, q);
        StartTouchesOwnRun(s, t, q, step);
      case _ =>
    }
    forall r | r in s.db.reports ensures r in t.db.reports && t.db.reports[r] == s.db.reports[r] {
      RunTheorems.BehaviorRunOnward(cfg, events, states, k, r);
    }
  }

  lemma StateIsShared(cfg: Config, events: seq<Event>, states: seq<State>, i: nat)
    requires Behavior(cfg, events, states) && i < |states|
    ensures SharedOk(View(states[i]))
  {
    EveryStateOk(cfg, events, states, i);
    var s := states[i];
    forall e | e in s.db.assets ensures e in s.minted && s.minted[e] == s.db.assets[e] { assert AssetOk(s, e); }
  }

  /** In every state all blob rows are those of the content. */
  lemma RowsAreRight(cfg: Config, events: seq<Event>, states: seq<State>, i: nat)
    requires Behavior(cfg, events, states) && i < |states|
    ensures RightRows(states[i].db)
  {
    EveryStateOk(cfg, events, states, i);
    forall h | h in states[i].db.blobs ensures RightRow(h, states[i].db.blobs[h]) {
      assert BlobOk(cfg, states[i], h);
      OnlyTheSignatureMatters(h.of);
    }
  }

  lemma OthersInterfereOnce(cfg: Config, events: seq<Event>, states: seq<State>, k: nat, mine: Id)
    requires Behavior(cfg, events, states) && k < |events| && !StepOf(events[k], mine)
    ensures Interference(View(states[k]), View(states[k + 1]), mine)
  {
    StateIsShared(cfg, events, states, k + 1);
    RowsAreRight(cfg, events, states, k + 1);
    RunsAt(cfg, events, states, k, mine);
    AssociationAt(cfg, events, states, k, mine);
    forall e | e in states[k].minted
      ensures e in states[k + 1].minted && states[k + 1].minted[e] == states[k].minted[e]
      ensures e in states[k + 1].db.assets ==> e in states[k].db.assets
    {
      AssociationAt(cfg, events, states, k, e);
    }
  }

  lemma OthersInterfereOnceMore(
    cfg: Config, events: seq<Event>, states: seq<State>, i: nat, k: nat, mine: Id)
    requires Behavior(cfg, events, states) && i <= k < |events| && !StepOf(events[k], mine)
    requires Interference(View(states[i]), View(states[k]), mine)
    ensures Interference(View(states[i]), View(states[k + 1]), mine)
  {
    StateIsShared(cfg, events, states, i);
    OthersInterfereOnce(cfg, events, states, k, mine);
    InterferenceComposes(View(states[i]), View(states[k]), View(states[k + 1]), mine);
  }

  /** No step of request `mine` is among the events from `i` up to `j`. */
  predicate Idle(events: seq<Event>, i: nat, j: nat, mine: Id)
    requires j <= |events|
  {
    forall k :: i <= k < j ==> !StepOf(events[k], mine)
  }

  /**
   * Between any two steps of a request, whatever all the others do in between, the rows change
   * only as its operations allow for.
   */
  lemma {:induction false} OthersInterfere(
    cfg: Config, events: seq<Event>, states: seq<State>, i: nat, j: nat, mine: Id)
    requires Behavior(cfg, events, states) && i <= j < |states| && Idle(events, i, j, mine)
    ensures Interference(View(states[i]), View(states[j]), mine)
    decreases j - i
  {
    if i == j {
      StateIsShared(cfg, events, states, i);
      InterferenceComposes(View(states[i]), View(states[i]), View(states[i]), mine);
    } else {
      OthersInterfere(cfg, events, states, i, j - 1, mine);
      OthersInterfereOnceMore(cfg, events, states, i, j - 1, mine);
    }
  }
}
