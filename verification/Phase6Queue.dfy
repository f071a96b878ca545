/** The queue controller: the submission gate and the polling loop with its deadline. */
module Phase6Queue {
  import opened Prelude
  import opened Json
  import opened Sanitizer
  import opened Phase6Budget

  datatype JobState = IN_QUEUE | IN_PROGRESS | COMPLETED | FAILED | CANCELLED | TIMED_OUT

  predicate Terminal(s: JobState) {
    s in {COMPLETED, FAILED, TIMED_OUT, CANCELLED}
  }

  /** Exactly queued and running jobs are polled again. */
  lemma TerminalExactly(s: JobState)
    ensures Terminal(s) <==> s != IN_QUEUE && s != IN_PROGRESS
  {
  }

  function StateText(s: JobState): string {
    match s
    case IN_QUEUE => "IN_QUEUE"
    case IN_PROGRESS => "IN_PROGRESS"
    case COMPLETED => "COMPLETED"
    case FAILED => "FAILED"
    case CANCELLED => "CANCELLED"
    case TIMED_OUT => "TIMED_OUT"
  }

  /** A validated receipt; `extra` holds the fields that the record does not declare. */
  datatype Receipt = Receipt(id: string, status: JobState, extra: seq<(string, Json)>)

  datatype JobResult = JobResult(receipt: Receipt, delayTime: Json, executionTime: Json, output: Json, error: Json)

  function DumpReceipt(r: Receipt): Json {
    Obj([("id", Str(r.id)), ("status", Str(StateText(r.status)))] + r.extra)
  }

  const OUTPUT_POSITION: nat := 4

  function DumpResult(r: JobResult): Json {
    Obj([("id", Str(r.receipt.id)), ("status", Str(StateText(r.receipt.status))), ("delayTime", r.delayTime),
         ("executionTime", r.executionTime), ("output", r.output), ("error", r.error)] + r.receipt.extra)
  }

  datatype Operation = CheckpointBootstrap | GpuValidation

  /** The three response contracts, as predicates on decoded values. */
  datatype Contracts = Contracts(workerError: Json -> bool, bootstrap: Json -> bool, validation: Json -> bool)

  predicate MatchesOperation(c: Contracts, output: Json, operation: Operation) {
    if operation.CheckpointBootstrap? then c.bootstrap(output) else c.validation(output)
  }

  datatype Fault =
    | BAD_DEADLINE
    | TRANSPORT
    | BAD_RECEIPT
    | UNSANITIZED(finding: Finding)
    | OUTPUT_MISSING
    | OUTPUT_UNSANITIZED(finding: Finding)
    | WORKER_REPORTED
    | OUTPUT_INVALID
    | NOT_CANCELLED
    | DEADLINE_EXCEEDED
    | NOT_APPROVED
    | OPERATION_MISMATCH
    | BELOW_BASELINE
    | CAP_REACHED

  // ---------------------------------------------------------------- completed outputs

  function ValidateCompletedOutput(lib: Library, c: Contracts, output: Json, operation: Operation): Option<Fault> {
    if output.Null? then Some(OUTPUT_MISSING)
    else
      match Visit(lib, output)
      case Some(f) => Some(OUTPUT_UNSANITIZED(f))
      case None =>
        if output.Obj? && Get(output.fields, "worker_error").Some? then
          if c.workerError(output) then Some(WORKER_REPORTED) else Some(OUTPUT_INVALID)
        else if MatchesOperation(c, output, operation) then None
        else Some(OUTPUT_INVALID)
  }

  lemma OutputIsASubtree(r: JobResult)
    ensures At(DumpResult(r), [OUTPUT_POSITION]) == Some(r.output)
  {
    var dump := DumpResult(r);
    assert Children(dump)[OUTPUT_POSITION] == dump.fields[OUTPUT_POSITION].1 == r.output;
    assert [OUTPUT_POSITION][1..] == [];
  }

  /** In a sanitary record every key is permitted and every value sanitary. */
  lemma FieldsAreSanitary(lib: Library, fields: seq<(string, Json)>, k: nat)
    requires Sanitary(lib, Obj(fields)) && k < |fields|
    ensures !SecretKey(lib, fields[k].0) && Sanitary(lib, fields[k].1)
  {
    var record := Obj(fields);
    assert Children(record)[k] == fields[k].1 && [k][1..] == [];
    SubtreesAreSanitary(lib, record, [k]);
    assert [k][..0] == [] && !Offends(lib, record, Finding(SECRET_KEY, [k]));
  }

  /** Every part of a sanitary result is: its identifier, the four values and each extra field. */
  lemma PartsAreSanitary(lib: Library, r: JobResult)
    requires Sanitary(lib, DumpResult(r))
    ensures Sanitary(lib, Str(r.receipt.id)) && Sanitary(lib, r.output) && Sanitary(lib, r.error)
    ensures Sanitary(lib, r.delayTime) && Sanitary(lib, r.executionTime)
    ensures forall x :: x in r.receipt.extra ==> !SecretKey(lib, x.0) && Sanitary(lib, x.1)
  {
    var fields := DumpResult(r).fields;
    forall k: nat | k < |fields| ensures !SecretKey(lib, fields[k].0) && Sanitary(lib, fields[k].1) {
      FieldsAreSanitary(lib, fields, k);
    }
    assert fields[0].1 == Str(r.receipt.id) && fields[2].1 == r.delayTime && fields[3].1 == r.executionTime;
    assert fields[4].1 == r.output && fields[5].1 == r.error;
    assert forall i :: 0 <= i < |r.receipt.extra| ==> fields[6 + i] == r.receipt.extra[i];
  }

  /** The second sanitizer pass cannot reject what the first one accepted. */
  lemma SecondCheckIsRedundant(lib: Library, c: Contracts, r: JobResult, operation: Operation)
    requires Visit(lib, DumpResult(r)).None?
    ensures match ValidateCompletedOutput(lib, c, r.output, operation) {
              case Some(fault) => !fault.OUTPUT_UNSANITIZED?
              case None => true
            }
  {
    VisitExact(lib, DumpResult(r));
    OutputIsASubtree(r);
    SubtreesAreSanitary(lib, DumpResult(r), [OUTPUT_POSITION]);
    VisitExact(lib, r.output);
  }

  // ---------------------------------------------------------------- approvals

  /** A canonical digest stands for exactly one record. */
  datatype Digest<!T> = Digest(of: T)

  datatype Approval<!P> = Approval(proposal: Digest<P>, budget: Digest<Budget>)

  predicate Authorizes<P(==)>(approval: Approval<P>, proposal: P, budget: Budget) {
    approval.proposal == Digest(proposal) && approval.budget == Digest(budget)
  }

  /** An approval fits one proposal and one budget only. */
  lemma ApprovalsFitOnce<P>(approval: Approval<P>, p: P, b: Budget, q: P, d: Budget)
    requires Authorizes(approval, p, b) && Authorizes(approval, q, d)
    ensures p == q && b == d
  {
  }

  // ---------------------------------------------------------------- the environment

  /** A monotone clock: readings never go back, and `Wait` advances it by at least its argument. */
  class Clock {
    var now: real

    method Monotonic() returns (t: real)
      modifies this
      ensures t == now >= old(now)
    {
      var elapsed: real := *;
      if elapsed > 0.0 { now := now + elapsed; }
      t := now;
    }

    method Wait(seconds: real)
      modifies this
      ensures now >= old(now) + seconds
    {
      var extra: real := *;
      now := now + seconds + if extra > 0.0 then extra else 0.0;
    }
  }

  /** The call raised, its answer did not validate, or it gave a record. */
  datatype Reply<T> = Raised | Malformed | Valid(value: T)

  /** The remote queue: unconstrained replies, in the order they were given. */
  class Transport {
    var submissions: seq<Reply<Receipt>>
    var statuses: seq<Reply<JobResult>>
    var cancellations: seq<Reply<Receipt>>

    method Submit() returns (reply: Reply<Receipt>)
      modifies this`submissions
      ensures submissions == old(submissions) + [reply]
    {
      reply := *;
      submissions := submissions + [reply];
    }

    method Status() returns (reply: Reply<JobResult>)
      modifies this`statuses
      ensures statuses == old(statuses) + [reply]
    {
      reply := *;
      statuses := statuses + [reply];
    }

    method Cancel() returns (reply: Reply<Receipt>)
      modifies this`cancellations
      ensures cancellations == old(cancellations) + [reply]
    {
      reply := *;
      cancellations := cancellations + [reply];
    }
  }

  // ---------------------------------------------------------------- the controller

  /** A floating-point deadline, as far as it matters: `nan` compares as false with everything. */
  datatype Seconds = Number(x: real) | NotANumber

  /** The range test of poll_until_terminal, written as it rejects. */
  predicate DeadlineAdmitted(d: Seconds) {
    !(d.Number? && d.x <= 0.0) && !(d.Number? && d.x > 1800.0)
  }

  predicate DeadlinePassed(now: real, start: real, d: Seconds) {
    d.Number? && now >= start + d.x
  }

  /**
   * The range test admits `nan`, and an admitted deadline can pass exactly when it is a number:
   * with `nan` a job that is never terminal is polled for ever.
   */
  lemma NanDeadlineNeverPasses(d: Seconds, start: real)
    requires DeadlineAdmitted(d)
    ensures (exists now :: DeadlinePassed(now, start, d)) <==> d.Number? && 0.0 < d.x <= 1800.0
    ensures DeadlineAdmitted(NotANumber)
  {
    if d.Number? { assert DeadlinePassed(start + d.x, start, d); }
  }

  function Ceiling(x: real): int {
    -((-x).Floor)
  }

  /** Status calls that a deadline and an interval allow. */
  function MaximumCalls(deadlineSeconds: real, interval: real): int
    requires interval > 0.0
  {
    Ceiling(deadlineSeconds / interval) + 1
  }

  /** No permitted deadline and interval allow more than 901 status calls. */
  lemma AtMost901Calls(deadlineSeconds: real, interval: real)
    requires 0.0 < deadlineSeconds <= 1800.0 && 2.0 <= interval <= 30.0
    ensures 2 <= MaximumCalls(deadlineSeconds, interval) <= 901
  {
    var q := deadlineSeconds / interval;
    assert q * interval == deadlineSeconds;
    assert 0.0 < q <= 900.0 by {
      if q > 900.0 { TimesRate(900.0, q, interval); }
    }
  }

  /** `n` waits that together stay short of the deadline leave room for one more call. */
  lemma CallsLeft(n: nat, deadlineSeconds: real, interval: real)
    requires interval > 0.0 && n as real * interval < deadlineSeconds
    ensures n + 2 <= MaximumCalls(deadlineSeconds, interval)
  {
    var q := deadlineSeconds / interval;
    assert q * interval == deadlineSeconds;
    assert n as real < q by {
      if q <= n as real { TimesRate(q, n as real, interval); }
    }
  }

  lemma OneMoreWait(n: nat, interval: real)
    ensures (n + 1) as real * interval == n as real * interval + interval
  {
  }

  /** A terminal result that the polling loop returns. */
  ghost predicate Returnable(lib: Library, c: Contracts, r: JobResult, operation: Operation) {
    && Terminal(r.receipt.status) && Sanitary(lib, DumpResult(r))
    && (r.receipt.status == COMPLETED ==>
          && !r.output.Null? && !(r.output.Obj? && Get(r.output.fields, "worker_error").Some?)
          && MatchesOperation(c, r.output, operation))
  }

  /** The checks on a terminal result. */
  method CheckTerminal(lib: Library, c: Contracts, r: JobResult, operation: Operation) returns (fault: Option<Fault>)
    requires Terminal(r.receipt.status)
    ensures fault.None? <==> Returnable(lib, c, r, operation)
    ensures fault.None? && r.receipt.status == COMPLETED ==> Sanitary(lib, r.output)
    ensures fault.Some? ==>
              !fault.value.OUTPUT_UNSANITIZED? && !fault.value.BAD_DEADLINE? && !fault.value.DEADLINE_EXCEEDED?
  {
    VisitExact(lib, DumpResult(r));
    var finding := Visit(lib, DumpResult(r));
    if finding.Some? { return Some(UNSANITIZED(finding.value)); }
    if r.receipt.status == COMPLETED {
      SecondCheckIsRedundant(lib, c, r, operation);
      VisitExact(lib, r.output);
      return ValidateCompletedOutput(lib, c, r.output, operation);
    }
    return None;
  }

  /** A status after which polling goes on. */
  predicate Pending(reply: Reply<JobResult>) {
    reply.Valid? && !Terminal(reply.value.receipt.status)
  }

  /** How many statuses were asked for since. */
  function Asked(before: seq<Reply<JobResult>>, after: seq<Reply<JobResult>>): int {
    |after| - |before|
  }

  predicate AllPending(before: seq<Reply<JobResult>>, after: seq<Reply<JobResult>>) {
    before <= after && forall k :: |before| <= k < |after| ==> Pending(after[k])
  }

  /** Statuses were asked for, and all but the last were pending. */
  predicate OnlyLastDecides(before: seq<Reply<JobResult>>, after: seq<Reply<JobResult>>) {
    |before| < |after| && AllPending(before, after[..|after| - 1])
  }

  lemma PendingExactly(reply: Reply<JobResult>)
    ensures Pending(reply) <==> reply.Valid? && reply.value.receipt.status in {IN_QUEUE, IN_PROGRESS}
  {
    if reply.Valid? { TerminalExactly(reply.value.receipt.status); }
  }

  /** What a returned result is known to be. */
  lemma ReturnedMeans(lib: Library, c: Contracts, r: JobResult, operation: Operation)
    requires Returnable(lib, c, r, operation)
    ensures r.receipt.status in {COMPLETED, FAILED, TIMED_OUT, CANCELLED} && Sanitary(lib, DumpResult(r))
    ensures r.receipt.status == COMPLETED ==>
              && !r.output.Null? && (r.output.Obj? ==> Get(r.output.fields, "worker_error").None?)
              && (operation.CheckpointBootstrap? ==> c.bootstrap(r.output))
              && (operation.GpuValidation? ==> c.validation(r.output))
  {
  }

  lemma OneMoreAsked(before: seq<Reply<JobResult>>, mid: seq<Reply<JobResult>>, after: seq<Reply<JobResult>>)
    requires AllPending(before, mid) && mid < after && |after| == |mid| + 1
    ensures OnlyLastDecides(before, after) && (Pending(Last(after)) ==> AllPending(before, after))
  {
    assert after[..|after| - 1] == mid;
    assert after == mid + [Last(after)];
  }

  /** After `calls` status calls and as many waits the deadline is still open. */
  predicate StillOpen(limit: Seconds, interval: real, calls: nat, start: real, now: real)
    requires interval > 0.0
  {
    limit.Number? ==> calls < MaximumCalls(limit.x, interval) && now >= start + calls as real * interval
  }

  /** A call at which the deadline had not passed, and the wait after it. */
  lemma OpenAfterWait(limit: Seconds, interval: real, calls: nat, start: real, asked: real, now: real)
    requires interval > 0.0 && StillOpen(limit, interval, calls, start, asked)
    requires !DeadlinePassed(asked, start, limit) && now >= asked + interval
    ensures StillOpen(limit, interval, calls + 1, start, now)
  {
    if limit.Number? {
      CallsLeft(calls, limit.x, interval);
      OneMoreWait(calls, interval);
    }
  }

  function Last<T>(s: seq<T>): T
    requires s != []
  {
    s[|s| - 1]
  }

  class Phase6QueueController {
    const clock: Clock
    const transport: Transport
    const interval: real

    ghost predicate Valid() {
      2.0 <= interval <= 30.0
    }

    constructor (clock: Clock, transport: Transport, interval: real)
      requires 2.0 <= interval <= 30.0
      ensures Valid() && this.clock == clock && this.transport == transport && this.interval == interval
    {
      this.clock := clock;
      this.transport := transport;
      this.interval := interval;
    }

    /** The constructor's own check. */
    static method Create(clock: Clock, transport: Transport, interval: real) returns (c: Option<Phase6QueueController>)
      ensures c.Some? <==> 2.0 <= interval <= 30.0
      ensures c.Some? ==> fresh(c.value) && c.value.Valid() && c.value.interval == interval
    {
      if interval < 2.0 || interval > 30.0 { return None; }
      var made := new Phase6QueueController(clock, transport, interval);
      return Some(made);
    }

    /** A job goes out exactly when every gate is open, whatever becomes of its receipt. */
    method SubmitApproved<P(==)>(lib: Library, approval: Approval<P>, proposal: P, budget: Budget,
                                 operationMatches: bool, counter: int) returns (r: Result<Receipt, Fault>)
      modifies transport`submissions
      ensures if approval.proposal.of == proposal && approval.budget.of == budget && operationMatches &&
                 5 <= counter < 7
              then
                && |transport.submissions| == |old(transport.submissions)| + 1
                && transport.submissions[..|old(transport.submissions)|] == old(transport.submissions)
                && var reply := Last(transport.submissions);
                   (r.Ok? <==> reply.Valid? && Sanitary(lib, DumpReceipt(reply.value)))
                   && (r.Ok? ==> r.value == reply.value)
              else
                transport.submissions == old(transport.submissions) && r.Err?
                && match r.error {
                     case NOT_APPROVED => approval.proposal.of != proposal || approval.budget.of != budget
                     case OPERATION_MISMATCH => !operationMatches
                     case BELOW_BASELINE => counter < 5
                     case CAP_REACHED => counter >= 7
                     case _ => false
                   }
    {
      if !Authorizes(approval, proposal, budget) { return Err(NOT_APPROVED); }
      if !operationMatches { return Err(OPERATION_MISMATCH); }
      if counter < PAID_JOBS_ALREADY_SUBMITTED { return Err(BELOW_BASELINE); }
      if counter >= MAXIMUM_PAID_JOBS { return Err(CAP_REACHED); }
      var reply := transport.Submit();
      if reply.Raised? { return Err(TRANSPORT); }
      if reply.Malformed? { return Err(BAD_RECEIPT); }
      VisitExact(lib, DumpReceipt(reply.value));
      var finding := Visit(lib, DumpReceipt(reply.value));
      if finding.Some? { return Err(UNSANITIZED(finding.value)); }
      return Ok(reply.value);
    }

    /**
     * Polling, watched for at most `horizon` status calls; None means that it still goes on then.
     * It goes on exactly while statuses are valid and not terminal. A deadline that is a number
     * ends it after at most MaximumCalls calls, by one cancellation; `nan` never does. It returns
     * exactly a last status that is terminal and passes the checks.
     */
    method PollUntilTerminal(lib: Library, contracts: Contracts, limit: Seconds, operation: Operation, horizon: nat)
      returns (r: Option<Result<JobResult, Fault>>)
      requires Valid() && horizon > 0
      modifies clock, transport`statuses, transport`cancellations
      ensures r == Some(Err(BAD_DEADLINE)) <==> !DeadlineAdmitted(limit)
      ensures !DeadlineAdmitted(limit) ==>
                transport.statuses == old(transport.statuses) && transport.cancellations == old(transport.cancellations)
      ensures DeadlineAdmitted(limit) ==> OnlyLastDecides(old(transport.statuses), transport.statuses)
      ensures DeadlineAdmitted(limit) ==>
                && Asked(old(transport.statuses), transport.statuses) <= horizon
                && (limit.Number? ==>
                      var most := MaximumCalls(limit.x, interval);
                      Asked(old(transport.statuses), transport.statuses) <= most && (r.None? ==> horizon < most))
                && (r.None? ==>
                      && Asked(old(transport.statuses), transport.statuses) == horizon
                      && Pending(Last(transport.statuses)) && transport.cancellations == old(transport.cancellations))
      ensures DeadlineAdmitted(limit) && r.Some? ==>
                var last := Last(transport.statuses);
                && (r.value.Ok? <==> last.Valid? && Returnable(lib, contracts, last.value, operation))
                && (r.value.Ok? ==> r.value.value == last.value)
                && (if Pending(last)
                    then
                      && limit.Number? && clock.now >= old(clock.now) + limit.x
                      && |transport.cancellations| == |old(transport.cancellations)| + 1
                      && (r.value == Err(DEADLINE_EXCEEDED) ==> Last(transport.cancellations).Valid?)
                    else
                      transport.cancellations == old(transport.cancellations) && r.value != Err(DEADLINE_EXCEEDED))
      ensures DeadlineAdmitted(limit) ==>
                var last := Last(transport.statuses);
                && (r.None? ==> last.Valid? && last.value.receipt.status in {IN_QUEUE, IN_PROGRESS})
                && (limit.NotANumber? && last.Valid? && last.value.receipt.status in {IN_QUEUE, IN_PROGRESS} ==>
                      r.None?)
      ensures r.Some? && r.value.Ok? && r.value.value.receipt.status == COMPLETED ==>
                Sanitary(lib, r.value.value.output)
      ensures r.Some? && r.value.Ok? ==>
                var result := r.value.value;
                && result.receipt.status in {COMPLETED, FAILED, TIMED_OUT, CANCELLED}
                && (result.receipt.status == COMPLETED && operation.CheckpointBootstrap? ==>
                      contracts.bootstrap(result.output))
                && (result.receipt.status == COMPLETED && operation.GpuValidation? ==>
                      contracts.validation(result.output))
      ensures r.Some? && r.value.Err? ==> !r.value.error.OUTPUT_UNSANITIZED?
    {
      if !DeadlineAdmitted(limit) { return Some(Err(BAD_DEADLINE)); }
      var start := clock.Monotonic();
      var calls: nat := 0;
      if limit.Number? { AtMost901Calls(limit.x, interval); }
      while calls < horizon
        invariant transport.cancellations == old(transport.cancellations)
        invariant calls == Asked(old(transport.statuses), transport.statuses) <= horizon
        invariant AllPending(old(transport.statuses), transport.statuses) && start >= old(clock.now)
        invariant StillOpen(limit, interval, calls, start, clock.now)
        decreases horizon - calls
      {
        ghost var mid := transport.statuses;
        var outcome := AskOnce(lib, contracts, operation);
        OneMoreAsked(old(transport.statuses), mid, transport.statuses);
        calls := calls + 1;
        PendingExactly(Last(transport.statuses));
        if outcome.Some? {
          if outcome.value.Ok? { ReturnedMeans(lib, contracts, outcome.value.value, operation); }
          return outcome;
        }
        var now := clock.Monotonic();
        if DeadlinePassed(now, start, limit) {
          var ended := CancelJob(lib);
          return Some(Err(ended));
        }
        clock.Wait(interval);
        OpenAfterWait(limit, interval, calls - 1, start, now, clock.now);
      }
      PendingExactly(Last(transport.statuses));
      return None;
    }

    /** One status call: None when the job is still pending. */
    method AskOnce(lib: Library, contracts: Contracts, operation: Operation)
      returns (r: Option<Result<JobResult, Fault>>)
      modifies transport`statuses
      ensures old(transport.statuses) < transport.statuses
      ensures |transport.statuses| == |old(transport.statuses)| + 1
      ensures var last := Last(transport.statuses);
        && (r.None? <==> Pending(last))
        && (r.Some? ==>
              && (r.value.Ok? <==> last.Valid? && Returnable(lib, contracts, last.value, operation))
              && (r.value.Ok? ==> r.value.value == last.value)
              && (r.value.Err? ==> !r.value.error.OUTPUT_UNSANITIZED? && !r.value.error.BAD_DEADLINE?)
              && r.value != Err(DEADLINE_EXCEEDED))
      ensures r.Some? && r.value.Ok? && r.value.value.receipt.status == COMPLETED ==>
                Sanitary(lib, r.value.value.output)
    {
      var reply := transport.Status();
      if reply.Raised? { return Some(Err(TRANSPORT)); }
      if reply.Malformed? { return Some(Err(BAD_RECEIPT)); }
      var result := reply.value;
      if !Terminal(result.receipt.status) { return None; }
      var fault := CheckTerminal(lib, contracts, result, operation);
      return Some(if fault.Some? then Err(fault.value) else Ok(result));
    }

    /** The cancellation at the deadline: one call, and always a failure. */
    method CancelJob(lib: Library) returns (fault: Fault)
      modifies transport`cancellations
      ensures |transport.cancellations| == |old(transport.cancellations)| + 1
      ensures fault.DEADLINE_EXCEEDED? <==>
                var reply := Last(transport.cancellations);
                reply.Valid? && reply.value.status == CANCELLED && Sanitary(lib, DumpReceipt(reply.value))
      ensures fault in {TRANSPORT, BAD_RECEIPT, NOT_CANCELLED, DEADLINE_EXCEEDED} || fault.UNSANITIZED?
    {
      var cancelled := transport.Cancel();
      if cancelled.Raised? { return TRANSPORT; }
      if cancelled.Malformed? { return BAD_RECEIPT; }
      if cancelled.value.status != CANCELLED { return NOT_CANCELLED; }
      VisitExact(lib, DumpReceipt(cancelled.value));
      var finding := Visit(lib, DumpReceipt(cancelled.value));
      return if finding.Some? then UNSANITIZED(finding.value) else DEADLINE_EXCEEDED;
    }
  }
}
