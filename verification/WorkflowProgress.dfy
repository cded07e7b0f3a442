/**
 Progress of a workflow run over any number of claims, yields, approvals and sessions.
 Completed steps stay a prefix of the step list and no attempt count passes
 max(MaxAttempts, 1), however old the copies are that workers start. If no accepted start
 brings back an older progress, no completed step's body runs again and no body runs more
 often than that. WorkflowStarts says when starts do.
 */
module WorkflowProgress {
  import opened WorkflowRun
  import opened WorkflowProtocol

  predicate SameProgress(a: Run, b: Run) {
    a.completedSteps == b.completedSteps && a.stepAttempts == b.stepAttempts && a.stepRetries == b.stepRetries
  }

  /** The completed steps and the one after them: all that was ever attempted. */
  function Touched(c: Config, r: Run): seq<string>
    requires r.completedSteps <= c.steps
  {
    var k := |r.completedSteps|;
    c.steps[..if k < |c.steps| then k + 1 else k]
  }

  predicate Bounded(c: Config, r: Run) {
    && r.completedSteps <= c.steps
    && forall n :: n in r.stepAttempts ==> r.stepAttempts[n] <= c.Limit() && n in Touched(c, r)
  }

  /** No attempt is under way: the next step has been tried exactly StepRetries times. */
  predicate Ready(c: Config, r: Run) {
    && Bounded(c, r)
    && var k := |r.completedSteps|;
    && (k < |c.steps| ==> Attempts(r, c.steps[k]) == r.stepRetries < c.Limit())
  }

  /** The attempt accounting that belongs to each program point. */
  predicate Accounted(c: Config, r: Run, pc: PC)
    requires PCValid(c, pc)
  {
    && Bounded(c, r)
    && var k := |r.completedSteps|;
    match pc
    case AtStep(i) => Ready(c, r) && i <= k
    case Attempting(i) => Ready(c, r) && i == k
    case InBody(i) => i == k && Attempts(r, c.steps[i]) == r.stepRetries + 1
    case Returned(i, _, _, _) => i == k && Attempts(r, c.steps[i]) == r.stepRetries + 1
    case Settling(i, _) => i == k && r.stepRetries == 0
    case Failing(i, _, _) => i == k
    case Done => true
  }

  predicate RunOk(c: Config, r: Run) {
    && Bounded(c, r)
    && (r.status.Pending? || r.status.WaitingApproval? ==> Ready(c, r))
  }

  /** An unfinished session has the progress of its stored run. */
  predicate SessionOk(c: Config, s: System, x: Session) {
    x.pc.Done? ||
    (PCValid(c, x.pc) && Accounted(c, x.run, x.pc) && x.run.id in s.runs && SameProgress(x.run, s.runs[x.run.id]))
  }

  predicate Progress(c: Config, s: System) {
    && Safe(c, s)
    && (forall id :: id in s.runs ==> RunOk(c, s.runs[id]))
    && (forall sid :: sid in s.sessions ==> SessionOk(c, s, s.sessions[sid]))
  }

  // ---- which copies are started ---------------------------------------------------------------

  /** A start that the store accepts. */
  predicate Accepts(s: System, e: Event) {
    && e.Start? && e.sid !in s.sessions && e.copy.id in s.runs && e.copy.status == Pending
    && StartUpdate(s.runs[e.copy.id], e.copy).Some?
  }

  /** The copy carries the progress of the stored run while it is pending, as a claim or a read returns it. */
  predicate HandedOut(s: System, copy: Run) {
    copy.id in s.runs && s.runs[copy.id].status == Pending && SameProgress(copy, s.runs[copy.id])
  }

  predicate ReadyStart(c: Config, s: System, e: Event) {
    Accepts(s, e) ==> Ready(c, e.copy)
  }

  /** An accepted start brings the progress that is stored. */
  predicate CurrentStart(s: System, e: Event) {
    Accepts(s, e) ==> SameProgress(e.copy, s.runs[e.copy.id])
  }

  predicate CurrentRun(c: Config, s: System, es: seq<Event>)
    decreases es
  {
    es != [] ==> CurrentStart(s, es[0]) && CurrentRun(c, Apply(c, s, es[0]), es[1..])
  }

  /** Every accepted copy was handed out in some state up to its start; `past` holds the states before s. */
  predicate EarlierRun(c: Config, past: seq<System>, s: System, es: seq<Event>)
    decreases es
  {
    es != [] ==>
      && (Accepts(s, es[0]) ==> exists i :: 0 <= i <= |past| && HandedOut((past + [s])[i], es[0].copy))
      && EarlierRun(c, past + [s], Apply(c, s, es[0]), es[1..])
  }

  // ---- the executor keeps the accounting ---------------------------------------------------

  lemma TouchedNext(c: Config, r: Run, n: string)
    requires c.Distinct() && Bounded(c, r) && |r.completedSteps| < |c.steps| && n == c.steps[|r.completedSteps|]
    ensures n !in r.completedSteps
    ensures var r' := r.(completedSteps := r.completedSteps + [n]);
            Bounded(c, r') && (|r'.completedSteps| < |c.steps| ==> Attempts(r', c.steps[|r'.completedSteps|]) == 0)
  {
    var k := |r.completedSteps|;
    assert r.completedSteps == c.steps[..k];
    var r' := r.(completedSteps := r.completedSteps + [n]);
    assert r'.completedSteps == c.steps[..k + 1];
    assert forall m :: m in Touched(c, r) ==> m in Touched(c, r');
  }

  /** The accounting holds again after a session's write, and what it stores is in order. */
  predicate AdvanceGood(c: Config, run: Run, pc: PC)
    requires PCValid(c, pc) && Saves(pc)
  {
    var (next, pc') := Advance(c, run, pc);
    PCValid(c, pc') && Accounted(c, next, pc') && RunOk(c, next)
  }

  lemma AdvanceSettling(c: Config, run: Run, i: nat, result: StepResult)
    requires c.Distinct() && run.status == Running
    requires PCValid(c, Settling(i, result)) && Accounted(c, run, Settling(i, result))
    ensures AdvanceGood(c, run, Settling(i, result))
  {
    TouchedNext(c, run, c.steps[i]);
  }

  lemma AdvanceAtStep(c: Config, run: Run, i: nat)
    requires c.Distinct() && run.status == Running
    requires PCValid(c, AtStep(i)) && Accounted(c, run, AtStep(i))
    ensures AdvanceGood(c, run, AtStep(i))
  {
    var k := |run.completedSteps|;
    var n := NextStep(c.steps, run.completedSteps, i);
    assert n == k by {
      if k < n {
        TouchedNext(c, run, c.steps[k]);
      }
    }
    var (next, pc') := Advance(c, run, AtStep(i));
    assert Touched(c, next) == Touched(c, run);
  }

  lemma AdvanceAttempting(c: Config, run: Run, i: nat)
    requires run.status == Running && PCValid(c, Attempting(i)) && Accounted(c, run, Attempting(i))
    ensures AdvanceGood(c, run, Attempting(i))
  {
    assert Touched(c, run)[i] == c.steps[i];
    var (next, pc') := Advance(c, run, Attempting(i));
    assert Touched(c, next) == Touched(c, run);
  }

  lemma AdvanceReturned(c: Config, run: Run, i: nat, o: Outcome, delay: nat, now: Time)
    requires run.status == Running && i < |c.steps| && Accounted(c, run, Returned(i, o, delay, now))
    ensures AdvanceGood(c, run, Returned(i, o, delay, now))
  {
    var (next, pc') := AfterBody(c, run, i, o, delay, now);
    assert next.completedSteps == run.completedSteps && next.stepAttempts == run.stepAttempts;
    assert Touched(c, next) == Touched(c, run);
  }

  lemma AdvanceFailing(c: Config, run: Run, i: nat, result: StepResult, text: string)
    requires i < |c.steps| && Accounted(c, run, Failing(i, result, text))
    ensures AdvanceGood(c, run, Failing(i, result, text))
  {
    var (next, pc') := Advance(c, run, Failing(i, result, text));
    assert Touched(c, next) == Touched(c, run);
  }

  lemma AdvanceAccounted(c: Config, run: Run, pc: PC)
    requires c.Distinct() && run.status == Running
    requires PCValid(c, pc) && Saves(pc) && Accounted(c, run, pc)
    ensures AdvanceGood(c, run, pc)
  {
    match pc
    case AtStep(i) => AdvanceAtStep(c, run, i);
    case Attempting(i) => AdvanceAttempting(c, run, i);
    case Settling(i, result) => AdvanceSettling(c, run, i, result);
    case Returned(i, o, delay, now) => AdvanceReturned(c, run, i, o, delay, now);
    case Failing(i, result, text) => AdvanceFailing(c, run, i, result, text);
  }

  // ---- every event keeps Progress -----------------------------------------------------------

  lemma StoreKeepsRun(c: Config, e: Event, id: string, r: Run)
    requires RunOk(c, r)
    ensures SameProgress(r, RunAfter(e, id, r)) && RunOk(c, RunAfter(e, id, r))
  {
    var r' := RunAfter(e, id, r);
    assert SameProgress(r, r') && (r'.status == r.status || IsTerminal(r'.status));
    assert r.completedSteps <= c.steps ==> Touched(c, r') == Touched(c, r);
  }

  lemma ProgressStore(c: Config, s: System, e: Event)
    requires Progress(c, s)
    ensures Progress(c, ApplyStore(s, e))
  {
    SafeStore(c, s, e);
    var s' := ApplyStore(s, e);
    forall id | id in s.runs
      ensures SameProgress(s.runs[id], s'.runs[id]) && RunOk(c, s'.runs[id])
    {
      StoreKeepsRun(c, e, id, s.runs[id]);
    }
    forall sid | sid in s'.sessions
      ensures SessionOk(c, s', s'.sessions[sid])
    {
      assert SessionOk(c, s, s.sessions[sid]);
    }
  }

  lemma ProgressEnqueue(c: Config, s: System, run: Run)
    requires Progress(c, s)
    ensures Progress(c, Apply(c, s, Enqueue(run)))
  {
    SafeLocal(c, s, Enqueue(run));
    var s' := Apply(c, s, Enqueue(run));
    forall sid | sid in s'.sessions
      ensures SessionOk(c, s', s'.sessions[sid])
    {
      assert SessionOk(c, s, s.sessions[sid]);
    }
  }

  lemma ProgressLocal(c: Config, s: System, e: Event)
    requires Progress(c, s) && (e.Body? || e.Abandon?)
    ensures Progress(c, Apply(c, s, e))
  {
    SafeLocal(c, s, e);
    var s' := Apply(c, s, e);
    assert s'.runs == s.runs;
    forall sid | sid in s'.sessions
      ensures SessionOk(c, s', s'.sessions[sid])
    {
      assert SessionOk(c, s, s.sessions[sid]);
    }
  }

  function Begun(s: System, sid: nat, run: Run): System {
    s.(runs := s.runs[run.id := run], sessions := s.sessions[sid := Session(run, AtStep(0))])
  }

  lemma ReadyOk(c: Config, r: Run, r': Run)
    requires Ready(c, r) && SameProgress(r, r')
    ensures Ready(c, r') && RunOk(c, r')
  {
    assert Touched(c, r') == Touched(c, r);
  }

  /** A session begins at a progress with no attempt under way, on a run that was free to start. */
  lemma ProgressBegin(c: Config, s: System, sid: nat, run: Run)
    requires Progress(c, s) && sid !in s.sessions && run.id in s.runs && run.status == Running && Ready(c, run)
    requires s.runs[run.id].status.Pending? || s.runs[run.id].status.WaitingApproval?
    ensures Progress(c, Begun(s, sid, run))
  {
    SafeBegin(c, s, sid, run);
    var s' := Begun(s, sid, run);
    forall sid' | sid' in s'.sessions
      ensures SessionOk(c, s', s'.sessions[sid'])
    {
      if sid' != sid {
        assert SessionOk(c, s, s.sessions[sid']);
        assert !s.sessions[sid'].pc.Done? ==> SessionSafe(c, s, sid');
      }
    }
  }

  lemma DropClaim(c: Config, s: System, key: (string, string))
    requires Progress(c, s)
    ensures Progress(c, s.(claims := s.claims - {key}))
  {
    var s' := s.(claims := s.claims - {key});
    forall sid | sid in s'.sessions
      ensures SessionOk(c, s', s'.sessions[sid])
    {
      assert SessionOk(c, s, s.sessions[sid]);
    }
  }

  lemma ProgressStart(c: Config, s: System, sid: nat, copy: Run)
    requires Progress(c, s) && ReadyStart(c, s, Start(sid, copy))
    ensures Progress(c, ApplyStart(s, sid, copy))
  {
    if sid !in s.sessions && copy.id in s.runs && copy.status == Pending {
      var key := (copy.id, copy.leaseOwner);
      DropClaim(c, s, key);
      var update := StartUpdate(s.runs[copy.id], copy);
      if update.Some? {
        ReadyOk(c, copy, update.value);
        ProgressBegin(c, s.(claims := s.claims - {key}), sid, update.value);
      }
    }
  }

  lemma ProgressResume(c: Config, s: System, sid: nat, id: string, approval: Refs)
    requires Progress(c, s)
    ensures Progress(c, ApplyResume(s, sid, id, approval))
  {
    if sid !in s.sessions && id in s.runs && ResumeUpdate(s.runs[id], approval).Some? {
      assert RunOk(c, s.runs[id]);
      ReadyOk(c, s.runs[id], ResumeUpdate(s.runs[id], approval).value);
      ProgressBegin(c, s, sid, ResumeUpdate(s.runs[id], approval).value);
    }
  }

  /** The accepted write of one session, seen as a change of one run and one session. */
  lemma ProgressCommit(c: Config, s: System, sid: nat, next: Run, stored: Run, pc: PC)
    requires Progress(c, s) && Active(s, sid) && s.sessions[sid].run.id == next.id == stored.id && next.id in s.runs
    requires s.runs[next.id].status == Running && stored.leaseOwner == s.runs[next.id].leaseOwner
    requires PCValid(c, pc) && Accounted(c, next, pc) && RunOk(c, stored) && SameProgress(next, stored)
    requires Safe(c, s.(runs := s.runs[next.id := stored], sessions := s.sessions[sid := Session(next, pc)]))
    ensures Progress(c, s.(runs := s.runs[next.id := stored], sessions := s.sessions[sid := Session(next, pc)]))
  {
    var s' := s.(runs := s.runs[next.id := stored], sessions := s.sessions[sid := Session(next, pc)]);
    forall sid' | sid' in s'.sessions
      ensures SessionOk(c, s', s'.sessions[sid'])
    {
      if sid' != sid {
        assert SessionOk(c, s, s.sessions[sid']) && Disjoint(s.sessions[sid], s.sessions[sid']);
      }
    }
  }

  lemma ProgressSave(c: Config, s: System, sid: nat)
    requires c.Distinct() && Progress(c, s)
    ensures Progress(c, ApplySave(c, s, sid))
  {
    SafeSave(c, s, sid);
    if Active(s, sid) && Saves(s.sessions[sid].pc) {
      var Session(run, pc) := s.sessions[sid];
      assert SessionOk(c, s, s.sessions[sid]);
      AdvanceAccounted(c, run, pc);
      AdvanceKeepsRunning(c, run, pc);
      var (next, pc') := Advance(c, run, pc);
      var update := SaveUpdate(s.runs[run.id], next);
      if update.Some? {
        StoredOk(c, next, update.value);
        ProgressCommit(c, s, sid, next, update.value, pc');
      }
    }
  }

  lemma StoredOk(c: Config, r: Run, r': Run)
    requires RunOk(c, r) && SameProgress(r, r') && r'.status == r.status
    ensures RunOk(c, r')
  {
    assert Touched(c, r') == Touched(c, r);
  }

  lemma ProgressStep(c: Config, s: System, e: Event)
    requires c.Distinct() && Progress(c, s) && ReadyStart(c, s, e)
    ensures Progress(c, Apply(c, s, e))
  {
    match e
    case Start(sid, copy) => ProgressStart(c, s, sid, copy);
    case Resume(sid, id, approval) => ProgressResume(c, s, sid, id, approval);
    case Save(sid) => ProgressSave(c, s, sid);
    case Body(_, _, _, _) => ProgressLocal(c, s, e);
    case Abandon(_) => ProgressLocal(c, s, e);
    case Enqueue(run) => ProgressEnqueue(c, s, run);
    case _ => ProgressStore(c, s, e);
  }

  /** What was pending had no attempt under way, so a copy of it is fit to start at any later time. */
  lemma HandedOutReady(c: Config, s: System, copy: Run)
    requires Progress(c, s) && HandedOut(s, copy)
    ensures Ready(c, copy)
  {
    assert RunOk(c, s.runs[copy.id]);
    ReadyOk(c, s.runs[copy.id], copy);
  }

  lemma CurrentReady(c: Config, s: System, e: Event)
    requires Progress(c, s) && CurrentStart(s, e)
    ensures ReadyStart(c, s, e)
  {
    if Accepts(s, e) {
      HandedOutReady(c, s, e.copy);
    }
  }

  lemma {:induction false} EarlierExec(c: Config, past: seq<System>, s: System, es: seq<Event>)
    requires c.Distinct() && Progress(c, s) && EarlierRun(c, past, s, es)
    requires forall p :: p in past ==> Progress(c, p)
    ensures Progress(c, Exec(c, s, es))
    decreases es
  {
    if es != [] {
      if Accepts(s, es[0]) {
        var i :| 0 <= i <= |past| && HandedOut((past + [s])[i], es[0].copy);
        HandedOutReady(c, (past + [s])[i], es[0].copy);
      }
      ProgressStep(c, s, es[0]);
      EarlierExec(c, past + [s], Apply(c, s, es[0]), es[1..]);
    }
  }

  /**
   Over any number of claims, yields and approvals, and however old the claims are that workers start: a prefix
   is completed, and no step's attempt count passes the limit.
   */
  lemma CompletedPrefixAndAttempts(c: Config, es: seq<Event>, id: string, n: string)
    requires c.Distinct() && EarlierRun(c, [], Empty(), es) && id in Exec(c, Empty(), es).runs
    ensures var r := Exec(c, Empty(), es).runs[id];
            && r.completedSteps <= c.steps
            && (n in r.stepAttempts ==> r.stepAttempts[n] <= if c.maxAttempts < 1 then 1 else c.maxAttempts)
  {
    EarlierExec(c, [], Empty(), es);
    assert RunOk(c, Exec(c, Empty(), es).runs[id]);
  }

  // ---- body executions -----------------------------------------------------------------------

  /** A body runs only for an attempt that was saved first. */
  predicate BodiesPaid(c: Config, s: System) {
    && (forall x :: x in s.bodies ==> x.id in s.runs && s.bodies[x] <= Attempts(s.runs[x.id], x.step))
    && (forall sid | sid in s.sessions && s.sessions[sid].pc.InBody? && PCValid(c, s.sessions[sid].pc) ::
          var Session(run, pc) := s.sessions[sid];
          s.bodies[Execution(run.id, c.steps[pc.i])] < Attempts(run, c.steps[pc.i]))
  }

  /** One session's write keeps what is completed and never lowers an attempt count. */
  lemma AdvanceMonotone(c: Config, run: Run, pc: PC, n: string)
    requires PCValid(c, pc) && Saves(pc)
    ensures var (next, _) := Advance(c, run, pc);
            run.completedSteps <= next.completedSteps && Attempts(run, n) <= Attempts(next, n)
  {
  }

  predicate Grows(r: Run, r': Run, n: string) {
    r.completedSteps <= r'.completedSteps && Attempts(r, n) <= Attempts(r', n)
  }

  lemma SaveMonotone(c: Config, s: System, sid: nat, id: string, n: string)
    requires Progress(c, s) && id in s.runs
    ensures id in ApplySave(c, s, sid).runs && Grows(s.runs[id], ApplySave(c, s, sid).runs[id], n)
  {
    if Active(s, sid) && Saves(s.sessions[sid].pc) {
      assert SessionOk(c, s, s.sessions[sid]);
      AdvanceMonotone(c, s.sessions[sid].run, s.sessions[sid].pc, n);
    }
  }

  lemma StartMonotone(c: Config, s: System, sid: nat, copy: Run, id: string, n: string)
    requires Progress(c, s) && CurrentStart(s, Start(sid, copy)) && id in s.runs
    ensures id in ApplyStart(s, sid, copy).runs && Grows(s.runs[id], ApplyStart(s, sid, copy).runs[id], n)
  {
  }

  lemma OthersKeepProgress(c: Config, s: System, e: Event, id: string)
    requires id in s.runs && (e.Resume? || e.Body? || e.Abandon? || e.Enqueue?)
    ensures id in Apply(c, s, e).runs && SameProgress(s.runs[id], Apply(c, s, e).runs[id])
  {
  }

  /** Every event keeps what is completed and never lowers an attempt count. */
  lemma RunMonotone(c: Config, s: System, e: Event, id: string, n: string)
    requires Progress(c, s) && CurrentStart(s, e) && id in s.runs
    ensures id in Apply(c, s, e).runs && Grows(s.runs[id], Apply(c, s, e).runs[id], n)
  {
    match e
    case Save(sid) => SaveMonotone(c, s, sid, id, n);
    case Start(sid, copy) => StartMonotone(c, s, sid, copy, id, n);
    case Resume(_, _, _) => OthersKeepProgress(c, s, e, id);
    case Body(_, _, _, _) => OthersKeepProgress(c, s, e, id);
    case Abandon(_) => OthersKeepProgress(c, s, e, id);
    case Enqueue(_) => OthersKeepProgress(c, s, e, id);
    case _ => StoreKeepsRun(c, e, id, s.runs[id]);
  }

  /** While a step is completed its body does not run, and it stays completed. */
  lemma BodyStep(c: Config, s: System, e: Event, id: string, n: string)
    requires c.Distinct() && Progress(c, s) && CurrentStart(s, e) && id in s.runs && n in s.runs[id].completedSteps
    ensures var s' := Apply(c, s, e);
            && id in s'.runs && n in s'.runs[id].completedSteps
            && s'.bodies[Execution(id, n)] == s.bodies[Execution(id, n)]
  {
    RunMonotone(c, s, e, id, n);
    if e.Body? && Active(s, e.sid) && s.sessions[e.sid].pc.InBody? && s.sessions[e.sid].run.id == id {
      assert SessionOk(c, s, s.sessions[e.sid]);
      TouchedNext(c, s.sessions[e.sid].run, c.steps[s.sessions[e.sid].pc.i]);
    }
  }

  /** Unless a start brings back older progress, a completed step's body never runs again. */
  lemma {:induction false} CompletedNeverRunsAgain(c: Config, s: System, es: seq<Event>, id: string, n: string)
    requires c.Distinct() && Progress(c, s) && CurrentRun(c, s, es)
    requires id in s.runs && n in s.runs[id].completedSteps
    ensures var s' := Exec(c, s, es);
            && id in s'.runs && n in s'.runs[id].completedSteps
            && s'.bodies[Execution(id, n)] == s.bodies[Execution(id, n)]
    decreases es
  {
    if es != [] {
      BodyStep(c, s, es[0], id, n);
      CurrentReady(c, s, es[0]);
      ProgressStep(c, s, es[0]);
      CompletedNeverRunsAgain(c, Apply(c, s, es[0]), es[1..], id, n);
    }
  }

  lemma OnlyBodyRuns(c: Config, s: System, e: Event)
    requires !e.Body?
    ensures Apply(c, s, e).bodies == s.bodies
  {
  }

  lemma PaidAttempt(c: Config, s: System, sid: nat)
    requires Progress(c, s) && BodiesPaid(c, s) && Active(s, sid) && s.sessions[sid].pc.Attempting?
    ensures var Session(run, pc) := s.sessions[sid];
            PCValid(c, pc) &&
            var n := c.steps[pc.i];
            s.bodies[Execution(run.id, n)] < Attempts(RecordAttempt(run, n), n)
  {
    var Session(run, pc) := s.sessions[sid];
    assert SessionOk(c, s, s.sessions[sid]);
    var x := Execution(run.id, c.steps[pc.i]);
    assert x in s.bodies ==> s.bodies[x] <= Attempts(s.runs[x.id], x.step);
  }

  /** A session is inside a body because it just saved an attempt, or because it was there before. */
  lemma BodyOrigin(c: Config, s: System, e: Event, sid: nat)
    requires sid in Apply(c, s, e).sessions && Apply(c, s, e).sessions[sid].pc.InBody?
    ensures sid in s.sessions
    ensures (e == Save(sid) && s.sessions[sid].pc.Attempting?) || Apply(c, s, e).sessions[sid] == s.sessions[sid]
  {
    if e.Save? && e.sid == sid && Active(s, sid) && PCValid(c, s.sessions[sid].pc) && Saves(s.sessions[sid].pc) {
      var (next, pc') := Advance(c, s.sessions[sid].run, s.sessions[sid].pc);
      assert pc'.InBody? ==> s.sessions[sid].pc.Attempting?;
    }
  }

  lemma PaidOther(c: Config, s: System, e: Event)
    requires Progress(c, s) && CurrentStart(s, e) && BodiesPaid(c, s) && !e.Body?
    ensures BodiesPaid(c, Apply(c, s, e))
  {
    var s' := Apply(c, s, e);
    OnlyBodyRuns(c, s, e);
    forall x | x in s'.bodies
      ensures x.id in s'.runs && s'.bodies[x] <= Attempts(s'.runs[x.id], x.step)
    {
      RunMonotone(c, s, e, x.id, x.step);
    }
    forall sid | sid in s'.sessions && s'.sessions[sid].pc.InBody? && PCValid(c, s'.sessions[sid].pc)
      ensures s'.bodies[Execution(s'.sessions[sid].run.id, c.steps[s'.sessions[sid].pc.i])] <
              Attempts(s'.sessions[sid].run, c.steps[s'.sessions[sid].pc.i])
    {
      BodyOrigin(c, s, e, sid);
      if e == Save(sid) && s.sessions[sid].pc.Attempting? {
        PaidAttempt(c, s, sid);
        AttemptSaved(c, s, sid);
      }
    }
  }

  lemma AttemptSaved(c: Config, s: System, sid: nat)
    requires Safe(c, s) && Active(s, sid) && s.sessions[sid].pc.Attempting?
    requires ApplySave(c, s, sid).sessions[sid].pc.InBody?
    ensures var Session(run, pc) := s.sessions[sid];
            && PCValid(c, pc)
            && var x := ApplySave(c, s, sid).sessions[sid];
            && x.pc == InBody(pc.i) && x.run.id == run.id
            && Attempts(x.run, c.steps[pc.i]) == Attempts(RecordAttempt(run, c.steps[pc.i]), c.steps[pc.i])
  {
  }

  lemma PaidByBody(c: Config, s: System, sid: nat, o: Outcome, delay: nat, now: Time)
    requires Progress(c, s) && BodiesPaid(c, s)
    ensures BodiesPaid(c, ApplyBody(c, s, sid, o, delay, now))
  {
    if Active(s, sid) && s.sessions[sid].pc.InBody? {
      var Session(run, pc) := s.sessions[sid];
      assert SessionOk(c, s, s.sessions[sid]);
      var s' := ApplyBody(c, s, sid, o, delay, now);
      forall sid' | sid' in s'.sessions && s'.sessions[sid'].pc.InBody? && PCValid(c, s'.sessions[sid'].pc)
        ensures s'.bodies[Execution(s'.sessions[sid'].run.id, c.steps[s'.sessions[sid'].pc.i])] <
                Attempts(s'.sessions[sid'].run, c.steps[s'.sessions[sid'].pc.i])
      {
        assert Disjoint(s.sessions[sid], s.sessions[sid']);
      }
    }
  }

  lemma PaidStep(c: Config, s: System, e: Event)
    requires Progress(c, s) && CurrentStart(s, e) && BodiesPaid(c, s)
    ensures BodiesPaid(c, Apply(c, s, e))
  {
    if e.Body? {
      PaidByBody(c, s, e.sid, e.outcome, e.delay, e.now);
    } else {
      PaidOther(c, s, e);
    }
  }

  lemma {:induction false} PaidExec(c: Config, s: System, es: seq<Event>)
    requires c.Distinct() && Progress(c, s) && CurrentRun(c, s, es) && BodiesPaid(c, s)
    ensures Progress(c, Exec(c, s, es)) && BodiesPaid(c, Exec(c, s, es))
    decreases es
  {
    if es != [] {
      CurrentReady(c, s, es[0]);
      ProgressStep(c, s, es[0]);
      PaidStep(c, s, es[0]);
      PaidExec(c, Apply(c, s, es[0]), es[1..]);
    }
  }

  /**
   Over a whole behaviour without such starts no step body executes more than max(MaxAttempts, 1) times for one run.
   */
  lemma BodiesBounded(c: Config, es: seq<Event>, id: string, n: string)
    requires c.Distinct() && CurrentRun(c, Empty(), es)
    ensures Exec(c, Empty(), es).bodies[Execution(id, n)] <= if c.maxAttempts < 1 then 1 else c.maxAttempts
  {
    PaidExec(c, Empty(), es);
    var s := Exec(c, Empty(), es);
    if Execution(id, n) in s.bodies {
      assert RunOk(c, s.runs[id]);
    }
  }
}
