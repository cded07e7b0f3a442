/**
 The workflow engine as a transition system. A shared store of runs is changed only by
 the guarded updates of WorkflowRun; executor sessions carry a private copy of the run and
 a program counter naming the point of runFrom / runStepWithRetry they have reached.
 Between any two writes of one session, everything else may happen.

 Apply is total: an event that the code would reject leaves the state unchanged (except
 that a rejected save ends its session), so a behaviour is just a sequence of events.
 */
module WorkflowProtocol {
  import opened Wrappers
  import opened WorkflowRun

  /** Program points of an executor session; `i` is the index of the step at hand. */
  datatype PC =
    | AtStep(i: nat)      // top of the runFrom loop
    | Attempting(i: nat)  // top of the retry loop, the attempt not yet saved
    | InBody(i: nat)      // attempt saved, the step body is running
    | Returned(i: nat, outcome: Outcome, delay: nat, now: Time)  // body returned, nothing saved yet
    | Settling(i: nat, result: StepResult)                       // success recorded, result not applied
    | Failing(i: nat, result: StepResult, text: string)          // failure recorded, run not yet failed
    | Done

  datatype Session = Session(run: Run, pc: PC)

  datatype Config = Config(steps: seq<string>, maxAttempts: int) {
    /** max(MaxAttempts, 1) */
    function Limit(): nat {
      if maxAttempts < 1 then 1 else maxAttempts
    }

    predicate Distinct() {
      forall i, j :: 0 <= i < j < |steps| ==> steps[i] != steps[j]
    }
  }

  /** The execution of one step body. */
  datatype Execution = Execution(id: string, step: string)

  datatype System = System(
    runs: map<string, Run>,
    sessions: map<nat, Session>,
    claims: map<(string, string), Run>,  // (run id, worker) -> copy of the latest claim, not started yet
    bodies: multiset<Execution>)         // every body execution so far

  datatype Event =
    | Enqueue(run: Run)
    | Claim(id: string, worker: string, lease: int, now: Time)
    | Start(sid: nat, copy: Run)
    | Resume(sid: nat, id: string, approval: Refs)
    | Cancel(id: string, reason: string)
    | Extend(id: string, worker: string, lease: int, now: Time)
    | Release(id: string, worker: string)
    | Recover(now: Time, reason: string)
    | Save(sid: nat)
    | Body(sid: nat, outcome: Outcome, delay: nat, now: Time)
    | Abandon(sid: nat)  // context cancelled or process gone: the session writes nothing more

  // ---- the executor's local computation ---------------------------------------------------

  /** The runFrom loop skips completed steps. */
  function NextStep(steps: seq<string>, completed: seq<string>, i: nat): (k: nat)
    requires i <= |steps|
    ensures i <= k <= |steps|
    ensures forall j :: i <= j < k ==> steps[j] in completed
    ensures k < |steps| ==> steps[k] !in completed
    decreases |steps| - i
  {
    if i < |steps| && steps[i] in completed then NextStep(steps, completed, i + 1) else i
  }

  /** A result that passed validateStepResult. */
  predicate ValidResult(r: StepResult) {
    !r.status.Unknown? && r.status != Known(Pending)
  }

  predicate PCValid(c: Config, pc: PC) {
    match pc
    case AtStep(i) => i <= |c.steps|
    case Settling(i, result) => i < |c.steps| && ValidResult(result)
    case Done => true
    case _ => pc.i < |c.steps|
  }

  predicate Saves(pc: PC) {
    !pc.Done? && !pc.InBody?
  }

  /** What a session writes next, and where it continues if the write is accepted. */
  function Advance(c: Config, run: Run, pc: PC): (Run, PC)
    requires PCValid(c, pc) && Saves(pc)
  {
    match pc
    case AtStep(i) =>
      var k := NextStep(c.steps, run.completedSteps, i);
      if k == |c.steps| then (run.(status := Succeeded), Done)
      else (run.(currentStep := c.steps[k]), Attempting(k))
    case Attempting(i) =>
      (RecordAttempt(run, c.steps[i]).(nextAttemptAt := ZERO_TIME), InBody(i))
    case Returned(i, o, delay, now) => AfterBody(c, run, i, o, delay, now)
    case Settling(i, result) =>
      var applied := ApplyStepResult(run, result);
      var next := if IsFailedOrCancelled(applied.status) then applied else MarkCompleted(applied, c.steps[i]);
      (next, if IsTerminalOrWaiting(next.status) then Done else AtStep(i + 1))
    case Failing(i, result, text) =>
      var applied := ApplyStepResult(run, result);
      (applied.(status := Failed, refs := applied.refs.(error := text)), Done)
  }

  function AfterBody(c: Config, run: Run, i: nat, o: Outcome, delay: nat, now: Time): (Run, PC)
    requires i < |c.steps|
  {
    var name := c.steps[i];
    var err := CheckedError(o);
    if err.NoError? then
      (run.(stepRecords := run.stepRecords + [SuccessRecord(name, Attempts(run, name), o.result)],
            stepRetries := 0),
       Settling(i, o.result))
    else
      var failed := FailedResult(o);
      var recorded :=
        run.(stepRecords := run.stepRecords + [StepRecord(name, Failed, Attempts(run, name), failed.refs)]);
      if !Retryable(err, run.stepRetries, c.Limit()) then
        (recorded.(stepRetries := 0), if err.preempted then Done else Failing(i, failed, err.text))
      else if run.leaseOwner != "" && delay > 0 then
        (recorded.(stepRetries := run.stepRetries + 1, status := Pending, nextAttemptAt := now + delay), Done)
      else
        (recorded.(stepRetries := run.stepRetries + 1), Attempting(i))
  }

  // ---- transitions ------------------------------------------------------------------------

  predicate Active(s: System, sid: nat) {
    sid in s.sessions && !s.sessions[sid].pc.Done?
  }

  function WithRun(s: System, id: string, update: Option<Run>): System {
    if update.Some? then s.(runs := s.runs[id := update.value]) else s
  }

  /** A run as a host enqueues it: pending, unleased, no progress. */
  predicate Fresh(r: Run) {
    && r.status == Pending && r.leaseOwner == ""
    && r.completedSteps == [] && r.stepAttempts == map[] && r.stepRetries == 0
  }

  function ApplyStart(s: System, sid: nat, copy: Run): System {
    if sid in s.sessions || copy.id !in s.runs || copy.status != Pending then s
    else
      var tried := s.(claims := s.claims - {(copy.id, copy.leaseOwner)});
      var update := StartUpdate(s.runs[copy.id], copy);
      if update.None? then tried
      else WithRun(tried, copy.id, update).(sessions := s.sessions[sid := Session(update.value, AtStep(0))])
  }

  function ApplyResume(s: System, sid: nat, id: string, approval: Refs): System {
    if sid in s.sessions || id !in s.runs then s
    else
      var update := ResumeUpdate(s.runs[id], approval);
      if update.None? then s
      else WithRun(s, id, update).(sessions := s.sessions[sid := Session(update.value, AtStep(0))])
  }

  function ApplySave(c: Config, s: System, sid: nat): System {
    if !Active(s, sid) then s
    else
      var Session(run, pc) := s.sessions[sid];
      if !PCValid(c, pc) || !Saves(pc) || run.id !in s.runs then s
      else
        var (next, pc') := Advance(c, run, pc);
        var update := SaveUpdate(s.runs[run.id], next);
        if update.None? then s.(sessions := s.sessions[sid := Session(next, Done)])
        else WithRun(s, run.id, update).(sessions := s.sessions[sid := Session(next, pc')])
  }

  function ApplyBody(c: Config, s: System, sid: nat, o: Outcome, delay: nat, now: Time): System {
    if !Active(s, sid) then s
    else
      var Session(run, pc) := s.sessions[sid];
      if !pc.InBody? || !PCValid(c, pc) then s
      else s.(sessions := s.sessions[sid := Session(run, Returned(pc.i, o, delay, now))],
              bodies := s.bodies + multiset{Execution(run.id, c.steps[pc.i])})
  }

  /** What an event of the queue, the recovery sweep or Cancel makes of the stored run `id`. */
  function RunAfter(e: Event, id: string, r: Run): Run {
    match e
    case Claim(id', worker, lease, now) =>
      if id' == id && worker != "" && lease > 0 && Claimable(r, now) then ClaimUpdate(r, worker, lease, now) else r
    case Cancel(id', reason) =>
      if id' == id then Updated(r, CancelUpdate(r, reason)) else r
    case Extend(id', worker, lease, now) =>
      if id' == id && id != "" && worker != "" && lease > 0 then Updated(r, ExtendUpdate(r, worker, lease, now)) else r
    case Release(id', worker) =>
      if id' == id && id != "" && worker != "" then Updated(r, ReleaseUpdate(r, worker)) else r
    case Recover(now, reason) =>
      if Expired(r, now) then FailExpired(r, reason) else r
    case _ => r
  }

  function Updated(r: Run, update: Option<Run>): Run {
    if update.Some? then update.value else r
  }

  /** A successful claim hands its worker a copy of the claimed run. */
  predicate Claims(s: System, e: Event) {
    e.Claim? && e.id in s.runs && e.worker != "" && e.lease > 0 && Claimable(s.runs[e.id], e.now)
  }

  function StoreAfter(runs: map<string, Run>, e: Event): map<string, Run> {
    map id | id in runs :: RunAfter(e, id, runs[id])
  }

  function ApplyStore(s: System, e: Event): System {
    s.(runs := StoreAfter(s.runs, e),
       claims := if Claims(s, e) then s.claims[(e.id, e.worker) := RunAfter(e, e.id, s.runs[e.id])] else s.claims)
  }

  function Apply(c: Config, s: System, e: Event): System {
    match e
    case Enqueue(run) =>
      if run.id in s.runs || !Fresh(run) then s else s.(runs := s.runs[run.id := run])
    case Start(sid, copy) => ApplyStart(s, sid, copy)
    case Resume(sid, id, approval) => ApplyResume(s, sid, id, approval)
    case Save(sid) => ApplySave(c, s, sid)
    case Body(sid, o, delay, now) => ApplyBody(c, s, sid, o, delay, now)
    case Abandon(sid) =>
      if Active(s, sid) then s.(sessions := s.sessions[sid := s.sessions[sid].(pc := Done)]) else s
    case _ => ApplyStore(s, e)
  }

  function Exec(c: Config, s: System, es: seq<Event>): System
    decreases es
  {
    if es == [] then s else Exec(c, Apply(c, s, es[0]), es[1..])
  }

  function Empty(): System {
    System(map[], map[], map[], multiset{})
  }

  lemma {:induction false} ExecConcat(c: Config, s: System, es: seq<Event>, fs: seq<Event>)
    ensures Exec(c, s, es + fs) == Exec(c, Exec(c, s, es), fs)
    decreases es
  {
    if es == [] {
      assert es + fs == fs;
    } else {
      assert (es + fs)[0] == es[0] && (es + fs)[1..] == es[1..] + fs;
      ExecConcat(c, Apply(c, s, es[0]), es[1..], fs);
    }
  }

  // ---- safety: one writer, terminal is final ------------------------------------------------

  /** The session's next save would be accepted by the store. */
  predicate CanCommit(s: System, sid: nat) {
    && Active(s, sid)
    && var run := s.sessions[sid].run;
    && run.id in s.runs
    && s.runs[run.id].status == Running
    && s.runs[run.id].leaseOwner == run.leaseOwner
  }

  /**
   A session that has not ended belongs to a run that is neither pending nor waiting; while that run
   is running its owner is the session's own or nobody.
   */
  predicate SessionSafe(c: Config, s: System, sid: nat)
    requires sid in s.sessions
  {
    var Session(run, pc) := s.sessions[sid];
    && PCValid(c, pc)
    && run.status == Running
    && run.id in s.runs
    && !s.runs[run.id].status.Pending? && !s.runs[run.id].status.WaitingApproval?
    && (s.runs[run.id].status == Running ==>
          s.runs[run.id].leaseOwner == run.leaseOwner || s.runs[run.id].leaseOwner == "")
  }

  /** Two sessions are not both at work on one run. */
  predicate Disjoint(a: Session, b: Session) {
    a.pc.Done? || b.pc.Done? || a.run.id != b.run.id
  }

  predicate Safe(c: Config, s: System) {
    && (forall id :: id in s.runs ==> s.runs[id].id == id)
    && (forall sid | sid in s.sessions && !s.sessions[sid].pc.Done? :: SessionSafe(c, s, sid))
    && (forall sid, sid' | sid in s.sessions && sid' in s.sessions && sid != sid' ::
          Disjoint(s.sessions[sid], s.sessions[sid']))
  }

  /** A session that continues after its write still holds a running copy; only the final write changes status. */
  lemma AdvanceKeepsRunning(c: Config, run: Run, pc: PC)
    requires PCValid(c, pc) && Saves(pc) && run.status == Running
    ensures var (next, pc') := Advance(c, run, pc);
            && next.id == run.id && next.leaseOwner == run.leaseOwner
            && PCValid(c, pc')
            && (!pc'.Done? ==> next.status == Running)
  {
  }

  predicate SameButLease(a: Run, b: Run) {
    b == a.(leaseOwner := b.leaseOwner, leaseUntil := b.leaseUntil)
  }

  /** How a run may change while no session writes it: a started run is never made startable again. */
  predicate Evolves(r: Run, r': Run) {
    && r'.id == r.id
    && (!r.status.Pending? && !r.status.WaitingApproval? ==>
          && !r'.status.Pending? && !r'.status.WaitingApproval?
          && (r'.status == Running ==> r.status == Running && (r'.leaseOwner == r.leaseOwner || r'.leaseOwner == "")))
  }

  lemma StoreEvolves(e: Event, id: string, r: Run)
    ensures Evolves(r, RunAfter(e, id, r))
    ensures IsTerminal(r.status) ==> SameButLease(r, RunAfter(e, id, r))
  {
  }

  lemma SafeStore(c: Config, s: System, e: Event)
    requires Safe(c, s)
    ensures Safe(c, ApplyStore(s, e))
  {
    var s' := ApplyStore(s, e);
    forall id | id in s.runs
      ensures Evolves(s.runs[id], s'.runs[id])
    {
      StoreEvolves(e, id, s.runs[id]);
    }
    forall sid | sid in s'.sessions && !s'.sessions[sid].pc.Done?
      ensures SessionSafe(c, s', sid)
    {
      assert SessionSafe(c, s, sid);
      assert Evolves(s.runs[s.sessions[sid].run.id], s'.runs[s.sessions[sid].run.id]);
    }
  }

  /** A run that no unfinished session works on may be given to a new one. */
  lemma SafeBegin(c: Config, s: System, sid: nat, run: Run)
    requires Safe(c, s) && sid !in s.sessions && run.id in s.runs && run.status == Running
    requires s.runs[run.id].status.Pending? || s.runs[run.id].status.WaitingApproval?
    ensures Safe(c, s.(runs := s.runs[run.id := run], sessions := s.sessions[sid := Session(run, AtStep(0))]))
  {
  }

  lemma SafeSave(c: Config, s: System, sid: nat)
    requires Safe(c, s)
    ensures Safe(c, ApplySave(c, s, sid))
  {
    if Active(s, sid) && Saves(s.sessions[sid].pc) {
      AdvanceKeepsRunning(c, s.sessions[sid].run, s.sessions[sid].pc);
    }
  }

  lemma SafeLocal(c: Config, s: System, e: Event)
    requires Safe(c, s) && (e.Body? || e.Abandon? || e.Enqueue?)
    ensures Safe(c, Apply(c, s, e))
  {
  }

  lemma SafeStep(c: Config, s: System, e: Event)
    requires Safe(c, s)
    ensures Safe(c, Apply(c, s, e))
  {
    match e
    case Start(sid, copy) =>
      if sid !in s.sessions && copy.id in s.runs && StartUpdate(s.runs[copy.id], copy).Some? {
        SafeBegin(c, s, sid, StartUpdate(s.runs[copy.id], copy).value);
      }
    case Resume(sid, id, approval) =>
      if sid !in s.sessions && id in s.runs && ResumeUpdate(s.runs[id], approval).Some? {
        SafeBegin(c, s, sid, ResumeUpdate(s.runs[id], approval).value);
      }
    case Save(sid) => SafeSave(c, s, sid);
    case Body(_, _, _, _) => SafeLocal(c, s, e);
    case Abandon(_) => SafeLocal(c, s, e);
    case Enqueue(_) => SafeLocal(c, s, e);
    case _ => SafeStore(c, s, e);
  }

  lemma {:induction false} SafeExec(c: Config, s: System, es: seq<Event>)
    requires Safe(c, s)
    ensures Safe(c, Exec(c, s, es))
    decreases es
  {
    if es != [] {
      SafeStep(c, s, es[0]);
      SafeExec(c, Apply(c, s, es[0]), es[1..]);
    }
  }

  /** In every interleaving at most one executor session of a run can still commit a write. */
  lemma AtMostOneWriter(c: Config, es: seq<Event>, sid: nat, sid': nat)
    requires var s := Exec(c, Empty(), es);
             CanCommit(s, sid) && CanCommit(s, sid') && s.sessions[sid].run.id == s.sessions[sid'].run.id
    ensures sid == sid'
  {
    SafeExec(c, Empty(), es);
  }

  /** A save changes at most the session's own run, and only if the store's guard lets it. */
  lemma SaveTouches(c: Config, s: System, sid: nat, id: string)
    requires Safe(c, s) && id in s.runs
    ensures id in ApplySave(c, s, sid).runs
    ensures ApplySave(c, s, sid).runs[id] != s.runs[id] ==> CanCommit(s, sid) && s.sessions[sid].run.id == id
  {
    if Active(s, sid) && Saves(s.sessions[sid].pc) {
      AdvanceKeepsRunning(c, s.sessions[sid].run, s.sessions[sid].pc);
    }
  }

  lemma TerminalStep(c: Config, s: System, e: Event, id: string)
    requires Safe(c, s) && id in s.runs && IsTerminal(s.runs[id].status)
    ensures id in Apply(c, s, e).runs && SameButLease(s.runs[id], Apply(c, s, e).runs[id])
  {
    StoreEvolves(e, id, s.runs[id]);
    if e.Save? {
      SaveTouches(c, s, e.sid, id);
    }
  }

  /** A succeeded, failed or cancelled run is never overwritten: later events touch only its lease fields. */
  lemma {:induction false} TerminalForever(c: Config, s: System, es: seq<Event>, id: string)
    requires Safe(c, s) && id in s.runs && IsTerminal(s.runs[id].status)
    ensures id in Exec(c, s, es).runs && SameButLease(s.runs[id], Exec(c, s, es).runs[id])
    decreases es
  {
    if es != [] {
      TerminalStep(c, s, es[0], id);
      SafeStep(c, s, es[0]);
      TerminalForever(c, Apply(c, s, es[0]), es[1..], id);
    }
  }

  predicate Fenced(s: System, sid: nat) {
    sid in s.sessions && !CanCommit(s, sid)
  }

  lemma FencedSave(c: Config, s: System, sid: nat, writer: nat)
    requires Safe(c, s) && Fenced(s, sid)
    ensures Fenced(ApplySave(c, s, writer), sid)
  {
    if Active(s, sid) {
      SaveTouches(c, s, writer, s.sessions[sid].run.id);
      if writer == sid && Saves(s.sessions[sid].pc) {
        AdvanceKeepsRunning(c, s.sessions[sid].run, s.sessions[sid].pc);
      }
      assert writer in s.sessions && writer != sid ==> Disjoint(s.sessions[writer], s.sessions[sid]);
    }
  }

  lemma FencedStore(c: Config, s: System, e: Event, sid: nat)
    requires Safe(c, s) && Fenced(s, sid)
    ensures Fenced(ApplyStore(s, e), sid)
  {
    if Active(s, sid) {
      var id := s.sessions[sid].run.id;
      assert SessionSafe(c, s, sid);
      StoreEvolves(e, id, s.runs[id]);
    }
  }

  lemma FencedStep(c: Config, s: System, e: Event, sid: nat)
    requires Safe(c, s) && Fenced(s, sid)
    ensures Fenced(Apply(c, s, e), sid)
  {
    match e
    case Save(writer) => FencedSave(c, s, sid, writer);
    case Start(_, _) => assert Active(s, sid) ==> SessionSafe(c, s, sid);
    case Resume(_, _, _) => assert Active(s, sid) ==> SessionSafe(c, s, sid);
    case Enqueue(_) => assert Active(s, sid) ==> SessionSafe(c, s, sid);
    case Body(_, _, _, _) =>
    case Abandon(_) =>
    case _ => FencedStore(c, s, e, sid);
  }

  /** A session that has lost its run - cancelled, recovered, released or finished - never writes again. */
  lemma {:induction false} FencedForever(c: Config, s: System, es: seq<Event>, sid: nat)
    requires Safe(c, s) && Fenced(s, sid)
    ensures Fenced(Exec(c, s, es), sid)
    decreases es
  {
    if es != [] {
      FencedStep(c, s, es[0], sid);
      SafeStep(c, s, es[0]);
      FencedForever(c, Apply(c, s, es[0]), es[1..], sid);
    }
  }
}
