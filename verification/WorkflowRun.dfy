/**
 The workflow run record and the pure rules the executor applies to it: status
 predicates, attempt accounting, step results, and the guards of the store
 updates made on the executor's behalf.
 */
module WorkflowRun {
  import opened Wrappers

  datatype Status = Pending | Running | WaitingApproval | Succeeded | Failed | Cancelled

  predicate IsTerminal(s: Status) {
    s == Succeeded || s == Failed || s == Cancelled
  }

  predicate IsTerminalOrWaiting(s: Status) {
    s == WaitingApproval || IsTerminal(s)
  }

  predicate IsFailedOrCancelled(s: Status) {
    s == Failed || s == Cancelled
  }

  /** Wall-clock readings. They need not be monotone; ZERO_TIME is Go's zero time. */
  type Time = int
  const ZERO_TIME: Time := 0

  /** References and bounded metadata a step hands to the run. Empty means "leave unchanged". */
  datatype Refs = Refs(outputRef: string, agentRunID: string, auditRef: string, error: string,
                       approvalRef: string, waitingReason: string, metadata: map<string, string>)

  datatype StepRecord = StepRecord(name: string, status: Status, attempt: nat, refs: Refs)

  datatype Run = Run(
    id: string,
    status: Status,
    inputRef: string,
    refs: Refs,
    currentStep: string,
    completedSteps: seq<string>,
    stepAttempts: map<string, nat>,
    stepRecords: seq<StepRecord>,
    stepRetries: nat,
    nextAttemptAt: Time,
    leaseOwner: string,
    leaseUntil: Time,
    createdAt: Time)

  /** A step result's status is free text in the source: empty, a known status, or something unknown. */
  datatype ResultStatus = NoStatus | Known(status: Status) | Unknown(text: string)

  datatype StepResult = StepResult(status: ResultStatus, refs: Refs)

  /** The error a step body returns, reduced to what the executor asks of it with errors.Is/As. */
  datatype StepError =
    | NoError
    | StepError(text: string, transient: bool, invalidStatus: bool, preempted: bool)

  datatype Outcome = Outcome(result: StepResult, err: StepError)

  function Overlay(current: string, update: string): string {
    if update == "" then current else update
  }

  function MergeRefs(current: Refs, update: Refs): Refs {
    Refs(Overlay(current.outputRef, update.outputRef),
         Overlay(current.agentRunID, update.agentRunID),
         Overlay(current.auditRef, update.auditRef),
         Overlay(current.error, update.error),
         Overlay(current.approvalRef, update.approvalRef),
         Overlay(current.waitingReason, update.waitingReason),
         current.metadata + update.metadata)
  }

  function ApplyStepResult(run: Run, result: StepResult): Run {
    run.(status := if result.status.Known? then result.status.status else run.status,
         refs := MergeRefs(run.refs, result.refs))
  }

  function MarkCompleted(run: Run, name: string): Run {
    if name in run.completedSteps then run
    else run.(completedSteps := run.completedSteps + [name])
  }

  function Attempts(run: Run, name: string): nat {
    if name in run.stepAttempts then run.stepAttempts[name] else 0
  }

  function RecordAttempt(run: Run, name: string): Run {
    run.(stepAttempts := run.stepAttempts[name := Attempts(run, name) + 1])
  }

  /** A body's error after the executor has also validated the result's status. */
  function CheckedError(o: Outcome): StepError {
    if o.err.StepError? then o.err
    else match o.result.status
      case NoStatus => NoError
      case Known(s) => if s == Pending then InvalidStatus() else NoError
      case Unknown(_) => InvalidStatus()
  }

  function InvalidStatus(): StepError {
    StepError("invalid workflow status", false, true, false)
  }

  function FailedResult(o: Outcome): StepResult
    requires CheckedError(o).StepError?
  {
    StepResult(Known(Failed), o.result.refs.(error := CheckedError(o).text))
  }

  function SuccessRecord(name: string, attempt: nat, r: StepResult): StepRecord {
    StepRecord(name, if r.status.Known? then r.status.status else Succeeded, attempt, r.refs)
  }

  predicate Retryable(err: StepError, retries: nat, maxAttempts: nat)
    requires err.StepError?
  {
    err.transient && !err.invalidStatus && retries + 1 < maxAttempts
  }

  // ---- guards of the store updates --------------------------------------------------------

  /** Executor.start: a pending run, held by the caller's lease owner, becomes running with the caller's copy. */
  function StartUpdate(current: Run, copy: Run): Option<Run> {
    if current.status == Pending && current.leaseOwner == copy.leaseOwner then
      Some(copy.(status := Running, nextAttemptAt := ZERO_TIME,
                 leaseUntil := current.leaseUntil, createdAt := current.createdAt))
    else None
  }

  /** Continue and Approve: a run leaves waiting_approval, with the approval's audit refs merged in. */
  function ResumeUpdate(current: Run, approval: Refs): Option<Run> {
    if current.status == WaitingApproval then
      Some(current.(status := Running, refs := MergeRefs(current.refs, approval)))
    else None
  }

  function CancelUpdate(current: Run, reason: string): Option<Run> {
    if IsTerminal(current.status) then None
    else Some(current.(status := Cancelled, refs := current.refs.(error := reason)))
  }

  /** Executor.save: progress is written only while the stored run is running under the same lease owner. */
  function SaveUpdate(current: Run, run: Run): Option<Run> {
    if current.status == Running && current.leaseOwner == run.leaseOwner then
      Some(run.(leaseUntil := current.leaseUntil, createdAt := current.createdAt))
    else None
  }

  // ---- queue leases ------------------------------------------------------------------------

  predicate Claimable(run: Run, now: Time) {
    && run.status == Pending
    && run.nextAttemptAt <= now
    && (run.leaseOwner == "" || run.leaseUntil <= now)
  }

  function ClaimUpdate(run: Run, worker: string, lease: int, now: Time): Run {
    run.(leaseOwner := worker, leaseUntil := now + lease)
  }

  function ExtendUpdate(run: Run, worker: string, lease: int, now: Time): Option<Run> {
    if run.leaseOwner != worker || run.leaseUntil == ZERO_TIME || run.leaseUntil <= now then None
    else Some(run.(leaseUntil := now + lease))
  }

  function ReleaseUpdate(run: Run, worker: string): Option<Run> {
    if run.leaseOwner != worker then None
    else Some(run.(leaseOwner := "", leaseUntil := ZERO_TIME))
  }

  predicate Expired(run: Run, now: Time) {
    run.status == Running && run.leaseOwner != "" && run.leaseUntil <= now
  }

  function FailExpired(run: Run, reason: string): Run {
    run.(status := Failed, refs := run.refs.(error := reason), leaseOwner := "", leaseUntil := ZERO_TIME)
  }
}
