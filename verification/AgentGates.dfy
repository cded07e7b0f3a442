/**
 What stands between a model's tool calls and their execution. A batch runs only if policy allows
 and the approver, or the host's decisions after a pause, grants every call of it; the first call that
 is not allowed decides how the run ends, and then nothing has run.
 */
module AgentGates {
  import opened Wrappers
  import opened ToolExecutor
  import opened AgentState
  import opened AgentPass
  import opened AgentPairing

  // ---- Policy and approver, call by call ----

  /** The tool a name stands for in a run: one of its own tools before one of the agent's. */
  function ToolFor(c: Config, s: State, name: string): Option<Tool> {
    if name in s.scoped then Some(s.scoped[name]) else if name in c.base then Some(c.base[name]) else None
  }

  /** Policy, asked about the run's user with what the run may do, allows the call. */
  predicate Permitted(c: Config, rq: Request, s: State, call: Call) {
    && ToolFor(c, s, call.name).Some?
    && c.policy(Asker(s.runID, rq.userID, rq.sessionID, s.allowed, rq.policyContext, s.metadata), call,
                ToolFor(c, s, call.name).value.permission)
  }

  /** What the approver says about a call of the batch that the latest model call asked for. */
  function DecisionOn(a: Approver, rq: Request, s: State, call: Call): Decision {
    a(s.summary.llmCalls, Asker(s.runID, rq.userID, rq.sessionID, s.allowed, rq.policyContext, s.metadata), call)
  }

  predicate Grants(a: Option<Approver>, rq: Request, s: State, call: Call) {
    a.Some? ==> DecisionOn(a.value, rq, s, call).allowed && !DecisionOn(a.value, rq, s, call).pending
  }

  /** The call at k is the first of the batch that fails the test. */
  ghost predicate FirstFailing(calls: seq<Call>, passes: Call -> bool, k: nat) {
    k < |calls| && !passes(calls[k]) && forall j :: 0 <= j < k ==> passes(calls[j])
  }

  function PermitTest(c: Config, rq: Request, s: State): Call -> bool {
    call => Permitted(c, rq, s, call)
  }

  function GrantTest(a: Option<Approver>, rq: Request, s: State): Call -> bool {
    call => Grants(a, rq, s, call)
  }

  lemma {:induction false} FirstFailingExists(calls: seq<Call>, passes: Call -> bool) returns (k: nat)
    ensures (forall j :: 0 <= j < |calls| ==> passes(calls[j])) || FirstFailing(calls, passes, k)
  {
    k := 0;
    if calls != [] && passes(calls[0]) {
      var j := FirstFailingExists(calls[1..], passes);
      if FirstFailing(calls[1..], passes, j) {
        k := j + 1;
      }
    }
  }

  lemma {:induction false} DenialOfFirst(c: Config, rq: Request, s: State, calls: seq<Call>)
    ensures PolicyDenial(c, Registry(c, s), AskerOf(rq, s), calls).None? <==>
            forall j :: 0 <= j < |calls| ==> Permitted(c, rq, s, calls[j])
    ensures forall k: nat :: FirstFailing(calls, PermitTest(c, rq, s), k) ==>
              PolicyDenial(c, Registry(c, s), AskerOf(rq, s), calls) ==
              Some(if ToolFor(c, s, calls[k].name).None? then ToolFailure(UnknownTool(calls[k].name))
                   else PolicyDenied(calls[k].name))
  {
    if calls != [] && Permitted(c, rq, s, calls[0]) {
      DenialOfFirst(c, rq, s, calls[1..]);
      forall k: nat | FirstFailing(calls, PermitTest(c, rq, s), k)
        ensures k > 0 && FirstFailing(calls[1..], PermitTest(c, rq, s), k - 1)
      {
        assert PermitTest(c, rq, s)(calls[0]);
      }
    }
  }

  /** Policy lets a batch pass if and only if it allows every call; otherwise its first refusal ends the pass. */
  lemma PolicyDecides(c: Config, rq: Request, s: State)
    ensures Policy(c, rq, s) == Next(s) <==> forall j :: 0 <= j < |s.pending| ==> Permitted(c, rq, s, s.pending[j])
    ensures forall k: nat :: FirstFailing(s.pending, PermitTest(c, rq, s), k) ==>
              Policy(c, rq, s) ==
              Abort(if ToolFor(c, s, s.pending[k].name).None? then ToolFailure(UnknownTool(s.pending[k].name))
                    else PolicyDenied(s.pending[k].name), s)
  {
    DenialOfFirst(c, rq, s, s.pending);
  }

  lemma {:induction false} ApprovalOfFirst(a: Approver, rq: Request, s: State, calls: seq<Call>)
    ensures Approvals(a, s.summary.llmCalls, AskerOf(rq, s), calls) == Granted <==>
            forall j :: 0 <= j < |calls| ==> Grants(Some(a), rq, s, calls[j])
    ensures forall k: nat :: FirstFailing(calls, GrantTest(Some(a), rq, s), k) ==>
              Approvals(a, s.summary.llmCalls, AskerOf(rq, s), calls) ==
              if DecisionOn(a, rq, s, calls[k]).pending then Waiting else Refused(calls[k].name)
  {
    if calls != [] && Grants(Some(a), rq, s, calls[0]) {
      ApprovalOfFirst(a, rq, s, calls[1..]);
      forall k: nat | FirstFailing(calls, GrantTest(Some(a), rq, s), k)
        ensures k > 0 && FirstFailing(calls[1..], GrantTest(Some(a), rq, s), k - 1)
      {
        assert GrantTest(Some(a), rq, s)(calls[0]);
      }
    }
  }

  /** The approver lets a batch pass if and only if it grants every call; the first it does not grant decides. */
  lemma ApprovalDecides(a: Option<Approver>, rq: Request, s: State)
    ensures Approval(a, rq, s) == Next(s) <==> forall j :: 0 <= j < |s.pending| ==> Grants(a, rq, s, s.pending[j])
    ensures forall k: nat :: FirstFailing(s.pending, GrantTest(a, rq, s), k) ==>
              && a.Some?
              && Approval(a, rq, s) ==
                 if DecisionOn(a.value, rq, s, s.pending[k]).pending then Interrupt(s)
                 else Abort(ApprovalDenied(s.pending[k].name), s)
  {
    if a.Some? {
      ApprovalOfFirst(a.value, rq, s, s.pending);
    }
  }

  // ---- One pass ----

  /** Every call of the batch is allowed by policy and granted by the approver. */
  ghost predicate Cleared(c: Config, a: Option<Approver>, rq: Request, d: State) {
    forall j :: 0 <= j < |d.pending| ==> Permitted(c, rq, d, d.pending[j]) && Grants(a, rq, d, d.pending[j])
  }

  /** How a pass ends at its gates: with the record as the model's answer left it. */
  ghost predicate Stops(c: Config, a: Option<Approver>, rq: Request, d: State, r: Step) {
    && r.state == d
    && exists k: nat ::
         if FirstFailing(d.pending, PermitTest(c, rq, d), k) then
           r == Abort(if ToolFor(c, d, d.pending[k].name).None? then ToolFailure(UnknownTool(d.pending[k].name))
                      else PolicyDenied(d.pending[k].name), d)
         else
           && (forall j :: 0 <= j < |d.pending| ==> Permitted(c, rq, d, d.pending[j]))
           && FirstFailing(d.pending, GrantTest(a, rq, d), k)
           && a.Some?
           && r == if DecisionOn(a.value, rq, d, d.pending[k]).pending then Interrupt(d)
                   else Abort(ApprovalDenied(d.pending[k].name), d)
  }

  /** What a cleared batch leads to: its execution, and the final answer if there is one. */
  function Carries(c: Config, rq: Request, d: State): Step {
    var b := ActAndObserve(c, rq, d);
    if b.Next? then Finalize(c, b.state) else b
  }

  lemma GatesDecide(c: Config, a: Option<Approver>, rq: Request, d: State)
    ensures var q := Policy(c, rq, d);
            var r := if q.Next? then Conclude(c, a, rq, q.state) else q;
            if Cleared(c, a, rq, d) then r == Carries(c, rq, d) else Stops(c, a, rq, d, r)
  {
    PolicyDecides(c, rq, d);
    ApprovalDecides(a, rq, d);
    var r := if Policy(c, rq, d).Next? then Conclude(c, a, rq, Policy(c, rq, d).state) else Policy(c, rq, d);
    var k := FirstFailingExists(d.pending, PermitTest(c, rq, d));
    if FirstFailing(d.pending, PermitTest(c, rq, d), k) {
      assert Stops(c, a, rq, d, r);
    } else {
      assert forall j :: 0 <= j < |d.pending| ==> PermitTest(c, rq, d)(d.pending[j]);
      var g := FirstFailingExists(d.pending, GrantTest(a, rq, d));
      if FirstFailing(d.pending, GrantTest(a, rq, d), g) {
        assert !FirstFailing(d.pending, PermitTest(c, rq, d), g);
        assert Stops(c, a, rq, d, r);
      } else {
        assert forall j :: 0 <= j < |d.pending| ==> GrantTest(a, rq, d)(d.pending[j]);
      }
    }
  }

  /** The record once the model has answered within the budget, if the pass gets so far. */
  function AnsweredWith(c: Config, req: RunRequest, s: State): Option<State> {
    var p := Prepare(c, req, s);
    if !p.Next? then None
    else
      var t := Think(c, p.state);
      if t.Next? && CheckBudget(c, t.state).Next? then Some(t.state) else None
  }

  /**
   A pass executes the calls its model asked for if and only if policy allows and the approver grants every one of
   them. Otherwise it ends with its record as the model's answer left it, by the first call that policy refuses or
   else the first that the approver does not grant.
   */
  lemma PassExecutesOnlyCleared(c: Config, a: Option<Approver>, req: RunRequest, s: State)
    requires AnsweredWith(c, req, s).Some?
    ensures var d := AnsweredWith(c, req, s).value;
            if Cleared(c, a, req.request, d) then Pass(c, a, req, s) == Carries(c, req.request, d)
            else Stops(c, a, req.request, d, Pass(c, a, req, s))
  {
    PassParts(c, a, req, s);
    GatesDecide(c, a, req.request, AnsweredWith(c, req, s).value);
  }

  // ---- Resumption ----

  /** The host denied the pending call at k. */
  predicate Denied(rs: seq<Resolution>, k: int) {
    exists j :: 0 <= j < |rs| && rs[j].index == k && !rs[j].allowed
  }

  lemma {:induction false} DenialIs(calls: seq<Call>, rs: seq<Resolution>, i: nat)
    requires i <= |calls|
    ensures Denial(calls, rs, i).None? <==> forall k :: i <= k < |calls| ==> !Denied(rs, k)
    ensures forall k: nat :: i <= k < |calls| && Denied(rs, k) && (forall j :: i <= j < k ==> !Denied(rs, j)) ==>
              Denial(calls, rs, i) == Some(calls[k].name)
    decreases |calls| - i
  {
    if i < |calls| && !Denied(rs, i) {
      DenialIs(calls, rs, i + 1);
    }
  }

  /** The restored record with the tools of its provider. */
  ghost predicate Rehydrated(c: Config, p: Checkpoint, t: State) {
    && Provided(c, RunRequest(p.runID, p.request)) == Ok(t.scoped)
    && t.runID == p.runID && t.messages == p.messages && t.pending == p.pending && t.toolResults == []
    && t.iteration == p.iteration && t.usage == p.usage && t.promptBlocks == p.promptBlocks && t.allowed == p.allowed
    && t.summary == Summary(p.llmCalls, p.toolCalls, p.usedTools, set n | n in p.usedTools)
    && t.metadata == CloneMetadata(p.metadata) && t.startedAt == p.startedAt && t.final == None
    && t.scratch == Scratch(None, None, None)
  }

  /** A refused resumption: how it fails, with nothing of the batch executed and the model not called. */
  ghost predicate Refuses(c: Config, a: Option<Approver>, p: Checkpoint, rs: seq<Resolution>, e: Error, t: State) {
    Resume(c, a, p, rs) == Failed(e, t) && ResumeCalls(c, a, p, rs) == []
  }

  /** A checkpoint is refused if and only if it is not a complete one of this version with named calls waiting. */
  lemma CheckpointChecked(c: Config, a: Option<Approver>, p: Checkpoint, rs: seq<Resolution>)
    ensures Resume(c, a, p, rs) == Rejected(InvalidCheckpoint) <==>
            || p.version != 1 || p.runID == 0 || p.startedAt == 0 || p.pending == [] || !c.encodes(p)
            || exists call :: call in p.pending && call.name == ""
  {
    if exists call :: call in p.pending && call.name == "" {
      var call :| call in p.pending && call.name == "";
      var i :| 0 <= i < |p.pending| && p.pending[i] == call;
    }
    var r := ResumeBatch(c, p, rs);
    if r.Some? && r.value.Next? {
      LoopNeverRejects(c, a, RunRequest(p.runID, p.request), r.value.state, r.value.state.iteration);
    }
  }

  lemma {:induction false} LoopNeverRejects(c: Config, a: Option<Approver>, req: RunRequest, s: State, i: int)
    ensures !Loop(c, a, req, s, i).Rejected?
    decreases Limit(c) - i
  {
    if i < Limit(c) && Pass(c, a, req, s).Next? {
      LoopNeverRejects(c, a, req, Pass(c, a, req, s).state, i + 1);
    }
  }

  /** Decisions that do not name the pending calls, each once, or a provider that fails, end the resumption at once. */
  lemma ResumeNeedsDecisions(c: Config, a: Option<Approver>, p: Checkpoint, rs: seq<Resolution>)
    requires ValidCheckpoint(c, p)
    ensures !Covers(p.pending, rs) ==> Refuses(c, a, p, rs, InvalidResolution, Restored(p))
    ensures var tools := Provided(c, RunRequest(p.runID, p.request));
            Covers(p.pending, rs) && tools.Err? ==> Refuses(c, a, p, rs, HostError(tools.error), Restored(p))
  {
  }

  /**
   A resumption executes the paused batch if and only if policy still allows every call of it and the host denied
   none. Otherwise the run fails by the first call that policy refuses, or else by the denied call with the smallest
   index, with the restored record and its tools, nothing executed and the model not called.
   */
  lemma ResumeExecutesOnlyAllowed(c: Config, a: Option<Approver>, p: Checkpoint, rs: seq<Resolution>, t: State)
    requires ValidCheckpoint(c, p) && Covers(p.pending, rs) && Rehydrated(c, p, t)
    ensures forall k: nat :: FirstFailing(p.pending, PermitTest(c, p.request, t), k) ==>
              Refuses(c, a, p, rs, if ToolFor(c, t, p.pending[k].name).None? then
                                     ToolFailure(UnknownTool(p.pending[k].name))
                                   else PolicyDenied(p.pending[k].name), t)
    ensures forall k: nat ::
              && k < |p.pending| && Denied(rs, k) && (forall j :: 0 <= j < k ==> !Denied(rs, j))
              && (forall j :: 0 <= j < |p.pending| ==> Permitted(c, p.request, t, p.pending[j])) ==>
              Refuses(c, a, p, rs, ApprovalDenied(p.pending[k].name), t)
    ensures (forall j :: 0 <= j < |p.pending| ==> Permitted(c, p.request, t, p.pending[j]) && !Denied(rs, j)) ==>
              ResumeBatch(c, p, rs) == Some(ActAndObserve(c, p.request, t))
  {
    assert t == Restored(p).(scoped := t.scoped);
    PolicyDecides(c, p.request, t);
    DenialIs(p.pending, rs, 0);
  }
}
