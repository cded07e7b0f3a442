/**
 Why a run is where it is. Over every behaviour, whatever copies are started: a run has succeeded only if all steps
 are completed or a body of it said so, it waits, failed or was cancelled only because a body said so, a body failed,
 someone cancelled it or its lease was lost; and a step is completed only if a body of it returned without an error.
 */
module WorkflowOutcomes {
  import opened WorkflowRun
  import opened WorkflowProtocol
  import opened WorkflowProgress

  /** What happened to a run: a body of one of its steps returned, someone cancelled it, its lease was recovered. */
  datatype Cause =
    | Ran(id: string, step: string, outcome: Outcome)
    | Asked(id: string, reason: string)
    | Recovered(id: string, reason: string)

  predicate Executes(c: Config, s: System, e: Event) {
    e.Body? && Active(s, e.sid) && s.sessions[e.sid].pc.InBody? && PCValid(c, s.sessions[e.sid].pc)
  }

  function CausesOf(c: Config, s: System, e: Event): set<Cause> {
    if Executes(c, s, e) then
      {Ran(s.sessions[e.sid].run.id, c.steps[s.sessions[e.sid].pc.i], e.outcome)}
    else match e
      case Cancel(id, reason) => {Asked(id, reason)}
      case Recover(now, reason) =>
        set id | id in s.runs && s.runs[id].leaseOwner != "" && s.runs[id].leaseUntil <= now :: Recovered(id, reason)
      case _ => {}
  }

  /** Everything that happened in a behaviour. */
  function History(c: Config, s: System, es: seq<Event>): set<Cause>
    decreases es
  {
    if es == [] then {} else CausesOf(c, s, es[0]) + History(c, Apply(c, s, es[0]), es[1..])
  }

  /** A body of the run returned without an error, with this status. */
  ghost predicate Said(h: set<Cause>, id: string, status: Status) {
    exists step, o :: Ran(id, step, o) in h && o.err.NoError? && o.result.status == Known(status)
  }

  /** The body failed: with an error, or with a status that a step may not return. */
  predicate Fails(o: Outcome) {
    o.err.StepError? || o.result.status.Unknown? || o.result.status == Known(Pending)
  }

  ghost predicate SomeBodyFailed(h: set<Cause>, id: string) {
    exists step, o :: Ran(id, step, o) in h && Fails(o)
  }

  ghost predicate WasAsked(h: set<Cause>, id: string) {
    exists reason :: Asked(id, reason) in h
  }

  ghost predicate WasRecovered(h: set<Cause>, id: string) {
    exists reason :: Recovered(id, reason) in h
  }

  predicate AllCompleted(c: Config, r: Run) {
    forall n :: n in c.steps ==> n in r.completedSteps
  }

  /** The stored status has its reason. */
  ghost predicate StatusExplained(c: Config, h: set<Cause>, r: Run) {
    match r.status
    case Pending => true
    case Running => true
    case WaitingApproval => Said(h, r.id, WaitingApproval)
    case Succeeded => AllCompleted(c, r) || Said(h, r.id, Succeeded)
    case Failed => Said(h, r.id, Failed) || SomeBodyFailed(h, r.id) || WasRecovered(h, r.id)
    case Cancelled => Said(h, r.id, Cancelled) || WasAsked(h, r.id)
  }

  /** The steps before the one a session is at are completed, and what it is about to write was returned by a body. */
  ghost predicate SessionExplained(c: Config, h: set<Cause>, x: Session) {
    !x.pc.Done? ==>
    && PCValid(c, x.pc) && (forall j :: 0 <= j < x.pc.i ==> c.steps[j] in x.run.completedSteps)
    && match x.pc
       case Returned(i, o, _, _) => Ran(x.run.id, c.steps[i], o) in h
       case Settling(i, result) =>
         exists o :: Ran(x.run.id, c.steps[i], o) in h && o.err.NoError? && o.result == result
       case Failing(i, _, _) => exists o :: Ran(x.run.id, c.steps[i], o) in h && Fails(o)
       case _ => true
  }

  ghost predicate RunsExplained(c: Config, h: set<Cause>, s: System) {
    forall id :: id in s.runs ==> StatusExplained(c, h, s.runs[id])
  }

  ghost predicate SessionsExplained(c: Config, h: set<Cause>, s: System) {
    forall sid :: sid in s.sessions ==> SessionExplained(c, h, s.sessions[sid])
  }

  ghost predicate Explained(c: Config, h: set<Cause>, s: System) {
    Safe(c, s) && RunsExplained(c, h, s) && SessionsExplained(c, h, s)
  }

  // ---- every event is explained -----------------------------------------------------------------

  /** What a session writes next has its reason, and so has the point at which it goes on. */
  lemma AdvanceExplained(c: Config, h: set<Cause>, x: Session)
    requires !x.pc.Done? && Saves(x.pc) && SessionExplained(c, h, x) && x.run.status == Running
    ensures var (next, pc') := Advance(c, x.run, x.pc);
            next.id == x.run.id && StatusExplained(c, h, next) && SessionExplained(c, h, Session(next, pc'))
  {
    match x.pc
    case AtStep(i) => AtStepExplained(c, h, x.run, i);
    case Attempting(i) =>
    case Returned(i, o, delay, now) =>
      assert CheckedError(o).NoError? ==> o.err.NoError?;
      assert CheckedError(o).StepError? ==> Fails(o);
    case Settling(i, result) => SettlingExplained(c, h, x.run, i, result);
    case Failing(i, _, _) =>
      var o :| Ran(x.run.id, c.steps[i], o) in h && Fails(o);
  }

  lemma AtStepExplained(c: Config, h: set<Cause>, run: Run, i: nat)
    requires SessionExplained(c, h, Session(run, AtStep(i))) && run.status == Running
    ensures var (next, pc') := Advance(c, run, AtStep(i));
            StatusExplained(c, h, next) && SessionExplained(c, h, Session(next, pc'))
  {
    var k := NextStep(c.steps, run.completedSteps, i);
    assert forall j :: 0 <= j < k ==> c.steps[j] in run.completedSteps;
    if k == |c.steps| {
      forall n | n in c.steps ensures n in run.completedSteps {
        var j :| 0 <= j < |c.steps| && c.steps[j] == n;
      }
    }
  }

  lemma SettlingExplained(c: Config, h: set<Cause>, run: Run, i: nat, result: StepResult)
    requires SessionExplained(c, h, Session(run, Settling(i, result))) && run.status == Running
    ensures var (next, pc') := Advance(c, run, Settling(i, result));
            StatusExplained(c, h, next) && SessionExplained(c, h, Session(next, pc'))
  {
    var o :| Ran(run.id, c.steps[i], o) in h && o.err.NoError? && o.result == result;
    if result.status.Known? {
      assert Said(h, run.id, result.status.status);
    }
  }

  lemma StoredExplained(c: Config, h: set<Cause>, r: Run, r': Run)
    requires StatusExplained(c, h, r) && r'.id == r.id && r'.status == r.status && r'.completedSteps == r.completedSteps
    ensures StatusExplained(c, h, r')
  {
  }

  lemma SaveExplained(c: Config, h: set<Cause>, s: System, sid: nat)
    requires Explained(c, h, s)
    ensures Explained(c, h, ApplySave(c, s, sid))
  {
    SafeSave(c, s, sid);
    if Active(s, sid) && Saves(s.sessions[sid].pc) {
      var x := s.sessions[sid];
      assert SessionSafe(c, s, sid) && SessionExplained(c, h, x);
      AdvanceExplained(c, h, x);
      var (next, pc') := Advance(c, x.run, x.pc);
      var update := SaveUpdate(s.runs[x.run.id], next);
      if update.Some? {
        StoredExplained(c, h, next, update.value);
      }
    }
  }

  lemma StoreExplains(c: Config, h: set<Cause>, s: System, e: Event, id: string)
    requires Explained(c, h, s) && CausesOf(c, s, e) <= h && id in s.runs && !Executes(c, s, e)
    ensures StatusExplained(c, h, RunAfter(e, id, s.runs[id]))
  {
    var r := s.runs[id];
    var r' := RunAfter(e, id, r);
    assert StatusExplained(c, h, r) && r.id == id;
    match e
    case Cancel(id', reason) =>
      assert Asked(id', reason) in h;
      if r' != r {
        assert r'.status == Cancelled;
      }
    case Recover(now, reason) =>
      if r' != r {
        assert Recovered(id, reason) in CausesOf(c, s, e);
        assert r'.status == Failed;
      }
    case _ => assert r'.status == r.status;
  }

  lemma StoreExplained(c: Config, h: set<Cause>, s: System, e: Event)
    requires Explained(c, h, s) && CausesOf(c, s, e) <= h && !Executes(c, s, e)
    ensures Explained(c, h, ApplyStore(s, e))
  {
    SafeStore(c, s, e);
    forall id | id in s.runs ensures StatusExplained(c, h, RunAfter(e, id, s.runs[id])) {
      StoreExplains(c, h, s, e, id);
    }
  }

  lemma LocalExplained(c: Config, h: set<Cause>, s: System, e: Event)
    requires Explained(c, h, s) && CausesOf(c, s, e) <= h && (e.Body? || e.Abandon? || e.Enqueue?)
    ensures Explained(c, h, Apply(c, s, e))
  {
    SafeLocal(c, s, e);
    var s' := Apply(c, s, e);
    forall sid | sid in s'.sessions ensures SessionExplained(c, h, s'.sessions[sid]) {
      assert SessionExplained(c, h, s.sessions[sid]);
    }
  }

  lemma ExplainedStep(c: Config, h: set<Cause>, s: System, e: Event)
    requires Explained(c, h, s) && CausesOf(c, s, e) <= h
    ensures Explained(c, h, Apply(c, s, e))
  {
    match e
    case Start(_, _) => SafeStep(c, s, e);
    case Resume(_, _, _) => SafeStep(c, s, e);
    case Save(sid) => SaveExplained(c, h, s, sid);
    case Body(_, _, _, _) => LocalExplained(c, h, s, e);
    case Abandon(_) => LocalExplained(c, h, s, e);
    case Enqueue(_) => LocalExplained(c, h, s, e);
    case _ => StoreExplained(c, h, s, e);
  }

  lemma {:induction false} ExplainedExec(c: Config, h: set<Cause>, s: System, es: seq<Event>)
    requires Explained(c, h, s) && History(c, s, es) <= h
    ensures Explained(c, h, Exec(c, s, es))
    decreases es
  {
    if es != [] {
      ExplainedStep(c, h, s, es[0]);
      ExplainedExec(c, h, Apply(c, s, es[0]), es[1..]);
    }
  }

  /** Over every behaviour, whatever copies of runs are started, each stored status has its reason. */
  lemma StatusMeans(c: Config, es: seq<Event>, id: string)
    requires id in Exec(c, Empty(), es).runs
    ensures var r := Exec(c, Empty(), es).runs[id];
            r.id == id && StatusExplained(c, History(c, Empty(), es), r)
  {
    ExplainedExec(c, History(c, Empty(), es), Empty(), es);
  }

  // ---- completed steps --------------------------------------------------------------------------

  predicate Ends(o: Outcome) {
    o.result.status == Known(Failed) || o.result.status == Known(Cancelled)
  }

  /** A body of the step returned without an error, and did not end the run as failed or cancelled. */
  ghost predicate RanWell(h: set<Cause>, id: string, n: string) {
    exists o :: Ran(id, n, o) in h && !Fails(o) && !Ends(o)
  }

  ghost predicate StepsRan(h: set<Cause>, r: Run) {
    forall n :: n in r.completedSteps ==> RanWell(h, r.id, n)
  }

  ghost predicate AllRan(h: set<Cause>, s: System) {
    && (forall id :: id in s.runs ==> StepsRan(h, s.runs[id]))
    && (forall sid :: sid in s.sessions && !s.sessions[sid].pc.Done? ==> StepsRan(h, s.sessions[sid].run))
  }

  /** Nobody starts a copy with a completed step that did not run well. */
  ghost predicate HonestStart(h: set<Cause>, s: System, e: Event) {
    Accepts(s, e) ==> StepsRan(h, e.copy)
  }

  lemma AdvanceRan(c: Config, h: set<Cause>, x: Session)
    requires !x.pc.Done? && Saves(x.pc) && SessionExplained(c, h, x) && StepsRan(h, x.run) && x.run.status == Running
    ensures StepsRan(h, Advance(c, x.run, x.pc).0)
  {
    if x.pc.Settling? {
      var o :| Ran(x.run.id, c.steps[x.pc.i], o) in h && o.err.NoError? && o.result == x.pc.result;
      var next := Advance(c, x.run, x.pc).0;
      if next.completedSteps != x.run.completedSteps {
        assert !Fails(o) && RanWell(h, x.run.id, c.steps[x.pc.i]);
      }
    }
  }

  lemma SaveRan(c: Config, h: set<Cause>, s: System, sid: nat)
    requires Explained(c, h, s) && AllRan(h, s)
    ensures AllRan(h, ApplySave(c, s, sid))
  {
    if Active(s, sid) && Saves(s.sessions[sid].pc) {
      var x := s.sessions[sid];
      assert SessionSafe(c, s, sid) && SessionExplained(c, h, x);
      AdvanceRan(c, h, x);
      AdvanceKeepsRunning(c, x.run, x.pc);
    }
  }

  lemma RanStep(c: Config, h: set<Cause>, s: System, e: Event)
    requires Explained(c, h, s) && AllRan(h, s) && HonestStart(h, s, e)
    ensures AllRan(h, Apply(c, s, e))
  {
    match e
    case Save(sid) => SaveRan(c, h, s, sid);
    case Start(sid, copy) =>
      if Accepts(s, e) {
        BeginRan(h, s, sid, StartUpdate(s.runs[copy.id], copy).value);
      }
    case Resume(sid, id, approval) =>
      if sid !in s.sessions && id in s.runs && ResumeUpdate(s.runs[id], approval).Some? {
        assert StepsRan(h, s.runs[id]);
        BeginRan(h, s, sid, ResumeUpdate(s.runs[id], approval).value);
      }
    case Body(_, _, _, _) => LocalRan(c, h, s, e);
    case Abandon(_) => LocalRan(c, h, s, e);
    case Enqueue(_) => LocalRan(c, h, s, e);
    case _ =>
      forall id | id in s.runs ensures StepsRan(h, RunAfter(e, id, s.runs[id])) {
        StoreKeepsSteps(e, id, s.runs[id]);
        assert StepsRan(h, s.runs[id]);
      }
  }

  lemma BeginRan(h: set<Cause>, s: System, sid: nat, run: Run)
    requires AllRan(h, s) && StepsRan(h, run)
    ensures AllRan(h, Begun(s, sid, run))
  {
  }

  lemma LocalRan(c: Config, h: set<Cause>, s: System, e: Event)
    requires AllRan(h, s) && (e.Body? || e.Abandon? || e.Enqueue?)
    ensures AllRan(h, Apply(c, s, e))
  {
  }

  lemma StoreKeepsSteps(e: Event, id: string, r: Run)
    ensures RunAfter(e, id, r).completedSteps == r.completedSteps && RunAfter(e, id, r).id == r.id
  {
  }

  lemma {:induction false} RanExec(c: Config, h: set<Cause>, past: seq<System>, s: System, es: seq<Event>)
    requires Explained(c, h, s) && History(c, s, es) <= h && EarlierRun(c, past, s, es)
    requires AllRan(h, s) && forall p :: p in past ==> AllRan(h, p) && forall id :: id in p.runs ==> p.runs[id].id == id
    ensures AllRan(h, Exec(c, s, es))
    decreases es
  {
    if es != [] {
      if Accepts(s, es[0]) {
        var i :| 0 <= i <= |past| && HandedOut((past + [s])[i], es[0].copy);
        var p := (past + [s])[i];
        assert StepsRan(h, p.runs[es[0].copy.id]);
      }
      ExplainedStep(c, h, s, es[0]);
      RanStep(c, h, s, es[0]);
      RanExec(c, h, past + [s], Apply(c, s, es[0]), es[1..]);
    }
  }

  /**
   Over every behaviour that starts only copies that were handed out, however old: a step is completed only if a body
   of it returned, in a session of that run, without an error and without failing or cancelling the run.
   */
  lemma CompletedRan(c: Config, es: seq<Event>, id: string, n: string)
    requires EarlierRun(c, [], Empty(), es)
    requires id in Exec(c, Empty(), es).runs && n in Exec(c, Empty(), es).runs[id].completedSteps
    ensures RanWell(History(c, Empty(), es), id, n)
  {
    StatusMeans(c, es, id);
    RanExec(c, History(c, Empty(), es), [], Empty(), es);
  }

  // ---- what a step hands to its run ---------------------------------------------------------------

  predicate Handed(before: string, update: string, after: string) {
    (update != "" ==> after == update) && (update == "" ==> after == before)
  }

  /** Every reference that is not empty replaces the run's own; metadata entries are added or replaced one by one. */
  predicate Overlaid(before: Refs, update: Refs, after: Refs) {
    && Handed(before.outputRef, update.outputRef, after.outputRef)
    && Handed(before.agentRunID, update.agentRunID, after.agentRunID)
    && Handed(before.auditRef, update.auditRef, after.auditRef)
    && Handed(before.error, update.error, after.error)
    && Handed(before.approvalRef, update.approvalRef, after.approvalRef)
    && Handed(before.waitingReason, update.waitingReason, after.waitingReason)
    && (forall k :: k in update.metadata ==> k in after.metadata && after.metadata[k] == update.metadata[k])
    && (forall k :: k in before.metadata && k !in update.metadata ==>
          k in after.metadata && after.metadata[k] == before.metadata[k])
    && (forall k :: k in after.metadata ==> k in before.metadata || k in update.metadata)
  }

  lemma ResultLaidOver(run: Run, result: StepResult)
    ensures var r := ApplyStepResult(run, result);
            && r == run.(status := r.status, refs := r.refs) && Overlaid(run.refs, result.refs, r.refs)
            && r.status == if result.status.Known? then result.status.status else run.status
  {
  }

  /**
   An accepted write of a step's result: the status is the one the step gave, or still running; its references are
   laid over the run's; the step counts as completed unless it failed or cancelled the run; nothing else changes.
   */
  lemma ResultStored(c: Config, s: System, sid: nat)
    requires Safe(c, s) && CanCommit(s, sid) && s.sessions[sid].pc.Settling?
    ensures var Session(run, pc) := s.sessions[sid];
            && run.id in ApplySave(c, s, sid).runs && pc.i < |c.steps|
            && var r := ApplySave(c, s, sid).runs[run.id];
            && r.status == (if pc.result.status.Known? then pc.result.status.status else Running)
            && Overlaid(run.refs, pc.result.refs, r.refs)
            && (r.status == Failed || r.status == Cancelled ==> r.completedSteps == run.completedSteps)
            && (r.status != Failed && r.status != Cancelled ==>
                  && c.steps[pc.i] in r.completedSteps
                  && r.completedSteps in {run.completedSteps, run.completedSteps + [c.steps[pc.i]]})
            && r == run.(status := r.status, refs := r.refs, completedSteps := r.completedSteps,
                         leaseUntil := s.runs[run.id].leaseUntil, createdAt := s.runs[run.id].createdAt)
  {
    assert SessionSafe(c, s, sid);
    AdvanceKeepsRunning(c, s.sessions[sid].run, s.sessions[sid].pc);
  }

  /** An accepted write of a failed step: the run fails with the step's error and keeps the references it returned. */
  lemma FailureStored(c: Config, s: System, sid: nat)
    requires Safe(c, s) && CanCommit(s, sid) && s.sessions[sid].pc.Failing?
    ensures var Session(run, pc) := s.sessions[sid];
            && run.id in ApplySave(c, s, sid).runs
            && var r := ApplySave(c, s, sid).runs[run.id];
            && r.status == Failed && r.refs.error == pc.text
            && Overlaid(run.refs, pc.result.refs.(error := ""), r.refs.(error := run.refs.error))
            && r == run.(status := Failed, refs := r.refs,
                         leaseUntil := s.runs[run.id].leaseUntil, createdAt := s.runs[run.id].createdAt)
  {
    assert SessionSafe(c, s, sid);
    AdvanceKeepsRunning(c, s.sessions[sid].run, s.sessions[sid].pc);
  }

  /** A run waiting for approval goes on, with the approval's references laid over its own, and nothing else resumes. */
  lemma ApprovalStored(c: Config, s: System, sid: nat, id: string, approval: Refs)
    requires Safe(c, s) && sid !in s.sessions && id in s.runs
    ensures var t := Apply(c, s, Resume(sid, id, approval));
            if s.runs[id].status != WaitingApproval then t == s
            else
              && sid in t.sessions && t.sessions[sid].pc == AtStep(0) && t.runs == s.runs[id := t.sessions[sid].run]
              && var r := t.sessions[sid].run;
              && r == s.runs[id].(status := Running, refs := r.refs)
              && Overlaid(s.runs[id].refs, approval, r.refs)
  {
  }

  /** A failed body may be tried again: its error is transient and the attempts are not used up. */
  predicate TriesAgain(c: Config, run: Run, o: Outcome) {
    && o.err.StepError? && o.err.transient && !o.err.invalidStatus
    && run.stepRetries + 1 < if c.maxAttempts < 1 then 1 else c.maxAttempts
  }

  /**
   After a body: one record of the attempt is added. A body that did not fail settles its step. A failed one is tried
   again, at once or after giving the run back until its delay is over, or else it fails the run, unless it was
   preempted.
   */
  lemma AttemptRecorded(c: Config, run: Run, i: nat, o: Outcome, delay: nat, now: Time)
    requires i < |c.steps|
    ensures var (r, pc) := AfterBody(c, run, i, o, delay, now);
            var text := if o.err.StepError? then o.err.text else "invalid workflow status";
            var refs := if Fails(o) then o.result.refs.(error := text) else o.result.refs;
            var status := if Fails(o) then Failed else if o.result.status.Known? then o.result.status.status
                          else Succeeded;
            var record := StepRecord(c.steps[i], status, Attempts(run, c.steps[i]), refs);
            var later := TriesAgain(c, run, o) && run.leaseOwner != "" && delay > 0;
            && r == run.(stepRecords := run.stepRecords + [record],
                         stepRetries := if TriesAgain(c, run, o) then run.stepRetries + 1 else 0,
                         status := if later then Pending else run.status,
                         nextAttemptAt := if later then now + delay else run.nextAttemptAt)
            && pc == if !Fails(o) then Settling(i, o.result)
                     else if TriesAgain(c, run, o) then if later then Done else Attempting(i)
                     else if o.err.StepError? && o.err.preempted then Done
                     else Failing(i, StepResult(Known(Failed), refs), text)
  {
  }
}
