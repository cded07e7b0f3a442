/**
 The agent's stages as they run: loops that change one run record in place. Each is proved to do
 what its function of the record says, up to the whole run and the whole resumption.
 */
module AgentRunner {
  import opened Wrappers
  import opened ToolExecutor
  import opened AgentState
  import opened AgentPass

  datatype StageResult = StageContinue | StageBreak | StageInterrupt | StageAbort(error: Error)

  function StepOf(r: StageResult, s: State): Step {
    match r
    case StageContinue => Next(s)
    case StageBreak => Break(s)
    case StageInterrupt => Interrupt(s)
    case StageAbort(e) => Abort(e, s)
  }

  function ResultOf(r: Step): StageResult {
    match r
    case Next(_) => StageContinue
    case Break(_) => StageBreak
    case Interrupt(_) => StageInterrupt
    case Abort(e, _) => StageAbort(e)
  }

  // ---- Resolutions ----

  predicate Distinct(rs: seq<Resolution>) {
    forall i, j :: 0 <= i < j < |rs| ==> rs[i].index != rs[j].index
  }

  function Indices(rs: seq<Resolution>): set<int> {
    set i | 0 <= i < |rs| :: rs[i].index
  }

  lemma {:induction false} IndicesSize(rs: seq<Resolution>)
    ensures |Indices(rs)| <= |rs|
    ensures Distinct(rs) ==> |Indices(rs)| == |rs|
  {
    if rs != [] {
      var n := |rs| - 1;
      IndicesSize(rs[..n]);
      assert Indices(rs) == Indices(rs[..n]) + {rs[n].index};
    }
  }

  lemma {:induction false} RangeSize(n: nat, xs: set<int>)
    requires forall x :: x in xs <==> 0 <= x < n
    ensures |xs| == n
  {
    if n > 0 {
      RangeSize(n - 1, xs - {n - 1});
    } else {
      assert forall x :: x !in xs;
    }
  }

  lemma {:induction false} InRangeSize(n: nat, xs: set<int>)
    requires forall x :: x in xs ==> 0 <= x < n
    ensures |xs| <= n
    ensures |xs| == n ==> forall x :: 0 <= x < n ==> x in xs
  {
    if n == 0 {
      assert forall x :: x !in xs;
    } else {
      var rest := xs - {n - 1};
      InRangeSize(n - 1, rest);
      if n - 1 in xs {
        assert xs == rest + {n - 1};
      } else {
        assert xs == rest;
      }
    }
  }

  /** As many decisions as calls, all in range: none is repeated if and only if no call is left out. */
  lemma CoversIffDistinct(calls: seq<Call>, rs: seq<Resolution>)
    requires |rs| == |calls| && forall j :: 0 <= j < |rs| ==> Names(calls, rs[j])
    ensures Covers(calls, rs) <==> Distinct(rs)
  {
    var xs := Indices(rs);
    IndicesSize(rs);
    InRangeSize(|calls|, xs);
    if Distinct(rs) {
      forall k | 0 <= k < |calls| ensures Decides(rs, k) {
        assert k in xs;
      }
    }
    if Covers(calls, rs) && !Distinct(rs) {
      forall k | 0 <= k < |calls| ensures k in xs {
        assert Decides(rs, k);
      }
      RangeSize(|calls|, xs);
      var i, j :| 0 <= i < j < |rs| && rs[i].index == rs[j].index;
      var fewer := rs[..j] + rs[j + 1..];
      IndicesSize(fewer);
      SkipRepeated(rs, i, j);
    }
  }

  lemma SkipRepeated(rs: seq<Resolution>, i: nat, j: nat)
    requires i < j < |rs| && rs[i].index == rs[j].index
    ensures Indices(rs) == Indices(rs[..j] + rs[j + 1..])
  {
    var fewer := rs[..j] + rs[j + 1..];
    forall x | x in Indices(rs) ensures x in Indices(fewer) {
      var k :| 0 <= k < |rs| && rs[k].index == x;
      if k < j {
        assert fewer[k] == rs[k];
      } else if k == j {
        assert fewer[i] == rs[i];
      } else {
        assert fewer[k - 1] == rs[k];
      }
    }
    forall x | x in Indices(fewer) ensures x in Indices(rs) {
      var k :| 0 <= k < |fewer| && fewer[k].index == x;
      assert fewer[k] == if k < j then rs[k] else rs[k + 1];
    }
  }

  /**
   validateApprovalResolutions: the decisions in call order, or the refusal of a set that does not
   name each pending call exactly once.
   */
  method ValidateResolutions(calls: seq<Call>, rs: seq<Resolution>) returns (r: Result<seq<Resolution>, Error>)
    ensures r.Ok? <==> Covers(calls, rs)
    ensures r.Ok? ==> |r.value| == |calls| && forall k :: 0 <= k < |calls| ==> r.value[k] in rs && r.value[k].index == k
    ensures r.Err? ==> r.error == InvalidResolution
  {
    if |calls| != |rs| {
      return Err(InvalidResolution);
    }
    var ordered := new Resolution[|calls|](_ => Resolution(0, "", "", false));
    var seen := new bool[|calls|](_ => false);
    for j := 0 to |rs|
      invariant forall i :: 0 <= i < j ==> Names(calls, rs[i]) && seen[rs[i].index]
      invariant Distinct(rs[..j])
      invariant forall k :: 0 <= k < |calls| && seen[k] ==> ordered[k] in rs[..j] && ordered[k].index == k
    {
      if rs[j].index < 0 || rs[j].index >= |calls| {
        assert !Names(calls, rs[j]);
        return Err(InvalidResolution);
      }
      if seen[rs[j].index] {
        Repeated(calls, rs, j, ordered[rs[j].index]);
        return Err(InvalidResolution);
      }
      var call := calls[rs[j].index];
      if rs[j].toolCallID != call.id || rs[j].tool != call.name {
        assert !Names(calls, rs[j]);
        return Err(InvalidResolution);
      }
      seen[rs[j].index] := true;
      ordered[rs[j].index] := rs[j];
      assert rs[..j + 1] == rs[..j] + [rs[j]];
    }
    assert rs[..|rs|] == rs;
    for k := 0 to |calls|
      invariant forall i :: 0 <= i < k ==> seen[i]
    {
      if !seen[k] {
        assert !Decides(rs, k);
        return Err(InvalidResolution);
      }
    }
    forall k | 0 <= k < |calls| ensures Decides(rs, k) {
      assert ordered[k] in rs && ordered[k].index == k;
    }
    r := Ok(ordered[..]);
  }

  lemma Repeated(calls: seq<Call>, rs: seq<Resolution>, j: nat, earlier: Resolution)
    requires j < |rs| && earlier in rs[..j] && earlier.index == rs[j].index
    ensures !Covers(calls, rs)
  {
    var i :| 0 <= i < j && rs[..j][i] == earlier;
    assert rs[i].index == rs[j].index;
    if Covers(calls, rs) {
      CoversIffDistinct(calls, rs);
    }
  }

  // ---- The run record ----

  class RunState {
    var value: State

    constructor (value: State)
      ensures this.value == value
    {
      this.value := value;
    }

    /** Pipeline.Run over stages given as functions of the record. */
    method RunPipeline(stages: seq<Stage>) returns (r: StageResult)
      modifies this
      ensures StepOf(r, value) == RunStages(stages, old(value))
    {
      for i := 0 to |stages|
        invariant RunStages(stages, old(value)) == RunStages(stages[i..], value)
      {
        assert stages[i..][0] == stages[i] && stages[i..][1..] == stages[i + 1..];
        var step := stages[i](value);
        value := step.state;
        if !step.Next? {
          return ResultOf(step);
        }
      }
      r := StageContinue;
    }

    /** ThinkStage.Run. */
    method Think(c: Config) returns (r: StageResult)
      modifies this
      ensures StepOf(r, value) == AgentState.Think(c, old(value))
    {
      var answer := c.llm(value.summary.llmCalls, ChatRequestOf(c, value));
      if answer.Err? {
        return StageAbort(HostError(answer.error));
      }
      var resp, tools := answer.value, Registry(c, value);
      var pending, rejected := ScreenCalls(c, tools, resp.toolCalls);
      var messages := value.messages;
      if resp.toolCalls != [] {
        messages := messages + [Message(Assistant, resp.content, "", resp.toolCalls)];
        messages := messages + rejected;
        assert messages == value.messages + Turn(c, tools, resp);
      } else if resp.content != "" {
        messages := messages + [Message(Assistant, resp.content, "", [])];
      }
      assert messages == value.messages + Turn(c, tools, resp);
      value := value.(
        messages := messages,
        usage := Usage(value.usage.inputTokens + resp.usage.inputTokens,
                       value.usage.outputTokens + resp.usage.outputTokens),
        pending := pending,
        summary := value.summary.(llmCalls := value.summary.llmCalls + 1),
        scratch := value.scratch.(lastResponse := Some(resp)));
      r := StageContinue;
    }

    /** PolicyStage.Run. */
    method Policy(c: Config, rq: Request) returns (r: StageResult)
      ensures StepOf(r, value) == AgentState.Policy(c, rq, value)
    {
      var tools, who := Registry(c, value), AskerOf(rq, value);
      for i := 0 to |value.pending|
        invariant PolicyDenial(c, tools, who, value.pending) == PolicyDenial(c, tools, who, value.pending[i..])
      {
        var call := value.pending[i];
        assert value.pending[i..][0] == call && value.pending[i..][1..] == value.pending[i + 1..];
        if call.name !in tools {
          return StageAbort(ToolFailure(UnknownTool(call.name)));
        }
        if !c.policy(who, call, tools[call.name].permission) {
          return StageAbort(PolicyDenied(call.name));
        }
      }
      r := StageContinue;
    }

    /** ApprovalStage.Run. */
    method Approve(a: Option<Approver>, rq: Request) returns (r: StageResult)
      ensures StepOf(r, value) == Approval(a, rq, value)
    {
      if a.None? {
        return StageContinue;
      }
      var batch, who := value.summary.llmCalls, AskerOf(rq, value);
      for i := 0 to |value.pending|
        invariant Approvals(a.value, batch, who, value.pending) == Approvals(a.value, batch, who, value.pending[i..])
      {
        var call := value.pending[i];
        assert value.pending[i..][0] == call && value.pending[i..][1..] == value.pending[i + 1..];
        var decision := a.value(batch, who, call);
        if decision.pending {
          return StageInterrupt;
        }
        if !decision.allowed {
          return StageAbort(ApprovalDenied(call.name));
        }
      }
      r := StageContinue;
    }

    /** recordToolResults. */
    method RecordToolResults(results: seq<Execution>)
      modifies this
      ensures value == old(value).(summary := Record(old(value).summary, results))
    {
      var summary := value.summary;
      for i := 0 to |results|
        invariant Record(value.summary, results) == Record(summary, results[i..])
      {
        assert results[i..][0] == results[i] && results[i..][1..] == results[i + 1..];
        summary := summary.(toolCalls := summary.toolCalls + 1);
        var name := results[i].call.name;
        if name !in summary.lookup {
          summary := summary.(usedTools := summary.usedTools + [name], lookup := summary.lookup + {name});
        }
      }
      value := value.(summary := summary);
    }

    /** ActStage.Run. */
    method Act(c: Config, rq: Request) returns (r: StageResult)
      modifies this
      ensures StepOf(r, value) == AgentState.Act(c, rq, old(value))
    {
      if value.pending == [] {
        return StageContinue;
      }
      var results, metadata := ExecuteCalls(c.behaviour, Registry(c, value), value.pending,
                                            Env(rq.userID, rq.sessionID, value.metadata));
      value := value.(metadata := metadata);
      if results.Err? {
        return StageAbort(ToolFailure(results.error));
      }
      RecordToolResults(results.value);
      value := value.(toolResults := results.value);
      r := StageContinue;
    }

    /** ObserveStage.Run. */
    method Observe()
      modifies this
      ensures value == AgentState.Observe(old(value))
    {
      if value.toolResults == [] && !RejectedOnly(value) {
        return;
      }
      var messages := value.messages;
      for i := 0 to |value.toolResults|
        invariant messages == value.messages + Replies(value.toolResults)[..i]
      {
        var x := value.toolResults[i];
        messages := messages + [Message(Reply, ReplyContent(x), x.call.id, [])];
      }
      value := value.(messages := messages, toolResults := [], pending := [], iteration := value.iteration + 1);
    }

    /** One pass of the pipeline, stage by stage. */
    method RunPass(c: Config, a: Option<Approver>, req: RunRequest) returns (r: StageResult)
      modifies this
      ensures StepOf(r, value) == Pass(c, a, req, old(value))
    {
      PassParts(c, a, req, value);
      r := Ask(c, req);
      if r.StageContinue? {
        r := Settle(c, a, req.request);
      }
    }

    method Ask(c: Config, req: RunRequest) returns (r: StageResult)
      modifies this
      ensures StepOf(r, value) ==
              var p := Prepare(c, req, old(value));
              if p.Next? then Decide(c, req.request, p.state) else p
    {
      PromptPart(c, req, value);
      r := RunPipeline(LoadStages(c, req));
      if !r.StageContinue? {
        return;
      }
      r := RunPipeline(PromptStages(c));
      if !r.StageContinue? {
        return;
      }
      r := Think(c);
      if !r.StageContinue? {
        return;
      }
      var budget := CheckBudget(c, value);
      if budget.Abort? {
        return StageAbort(budget.error);
      }
      r := Policy(c, req.request);
    }

    /** ActStage and ObserveStage. */
    method RunBatch(c: Config, rq: Request) returns (r: StageResult)
      modifies this
      ensures StepOf(r, value) == ActAndObserve(c, rq, old(value))
    {
      r := Act(c, rq);
      if r.StageContinue? {
        Observe();
      }
    }

    method Settle(c: Config, a: Option<Approver>, rq: Request) returns (r: StageResult)
      modifies this
      ensures StepOf(r, value) == Conclude(c, a, rq, old(value))
    {
      r := Approve(a, rq);
      if !r.StageContinue? {
        return;
      }
      r := RunBatch(c, rq);
      if !r.StageContinue? {
        return;
      }
      var final := Finalize(c, value);
      value := final.state;
      r := ResultOf(final);
    }

    /** ReActRunner.Run. */
    method React(c: Config, a: Option<Approver>, req: RunRequest) returns (o: Outcome)
      modifies this
      ensures o == Loop(c, a, req, old(value), old(value).iteration)
    {
      var i := value.iteration;
      while i < Limit(c)
        invariant Loop(c, a, req, value, i) == Loop(c, a, req, old(value), old(value).iteration)
        decreases Limit(c) - i
      {
        ghost var before := value;
        var r := RunPass(c, a, req);
        assert StepOf(r, value) == PassStage(c, a, req)(before);
        match r {
          case StageBreak => return SaveMemory(c, req.request, value);
          case StageInterrupt => return Paused(value);
          case StageAbort(e) => return Failed(e, value);
          case StageContinue =>
        }
        i := i + 1;
      }
      o := Failed(MaxIterations, value);
    }
  }

  lemma {:induction false} ScreenSnoc(c: Config, tools: map<string, Tool>, calls: seq<Call>, x: Call)
    ensures Accepted(c, tools, calls + [x]) == Accepted(c, tools, calls) + Accepted(c, tools, [x])
    ensures Rejections(c, tools, calls + [x]) == Rejections(c, tools, calls) + Rejections(c, tools, [x])
  {
    if calls == [] {
      assert calls + [x] == [x];
    } else {
      assert (calls + [x])[0] == calls[0] && (calls + [x])[1..] == calls[1..] + [x];
      ScreenSnoc(c, tools, calls[1..], x);
    }
  }

  lemma ScreenOne(c: Config, tools: map<string, Tool>, x: Call)
    ensures Accepted(c, tools, [x]) == if Rejects(c, tools, x) then [] else [x]
    ensures Rejections(c, tools, [x])
            == if Rejects(c, tools, x) then [Message(Reply, c.rejection(tools, x), x.id, [])] else []
  {
    assert [x][1..] == [];
  }

  /** The screening loop of ThinkStage.Run. */
  method ScreenCalls(c: Config, tools: map<string, Tool>, calls: seq<Call>)
    returns (pending: seq<Call>, rejected: seq<Message>)
    ensures pending == Accepted(c, tools, calls) && rejected == Rejections(c, tools, calls)
  {
    pending, rejected := [], [];
    for i := 0 to |calls|
      invariant pending == Accepted(c, tools, calls[..i]) && rejected == Rejections(c, tools, calls[..i])
    {
      ScreenSnoc(c, tools, calls[..i], calls[i]);
      ScreenOne(c, tools, calls[i]);
      assert calls[..i] + [calls[i]] == calls[..i + 1];
      if Rejects(c, tools, calls[i]) {
        rejected := rejected + [Message(Reply, c.rejection(tools, calls[i]), calls[i].id, [])];
      } else {
        pending := pending + [calls[i]];
      }
    }
    assert calls[..|calls|] == calls;
  }

  /** Agent.run. */
  method RunAgent(c: Config, a: Option<Approver>, req: RunRequest, generated: RunID, now: int) returns (o: Outcome)
    ensures o == Run(c, a, req, generated, now)
  {
    var state := new RunState(NewState(RunIDOf(req, generated), req, now));
    o := state.React(c, a, req);
  }

  lemma {:induction false} DenialAt(calls: seq<Call>, rs: seq<Resolution>, ordered: seq<Resolution>, k: nat)
    requires k < |calls| == |ordered| && Covers(calls, rs) && ordered[k] in rs && ordered[k].index == k
    ensures Denial(calls, rs, k) == if ordered[k].allowed then Denial(calls, rs, k + 1) else Some(calls[k].name)
  {
    CoversIffDistinct(calls, rs);
    var i :| 0 <= i < |rs| && rs[i] == ordered[k];
  }

  /** Agent.resume. */
  method ResumeAgent(c: Config, a: Option<Approver>, p: Checkpoint, rs: seq<Resolution>) returns (o: Outcome)
    ensures o == Resume(c, a, p, rs)
  {
    if !ValidCheckpoint(c, p) {
      return Rejected(InvalidCheckpoint);
    }
    var req := RunRequest(p.runID, p.request);
    var state := new RunState(Restored(p));
    var resolved := ValidateResolutions(p.pending, rs);
    if resolved.Err? {
      return Failed(InvalidResolution, state.value);
    }
    var tools := Provided(c, req);
    if tools.Err? {
      return Failed(HostError(tools.error), state.value);
    }
    state.value := state.value.(scoped := tools.value);
    var r := state.Policy(c, p.request);
    if r.StageAbort? {
      return Failed(r.error, state.value);
    }
    ghost var waiting := state.value;
    for k := 0 to |p.pending|
      invariant state.value == waiting
      invariant Denial(p.pending, rs, 0) == Denial(p.pending, rs, k)
    {
      DenialAt(p.pending, rs, resolved.value, k);
      if !resolved.value[k].allowed {
        return Failed(ApprovalDenied(p.pending[k].name), state.value);
      }
    }
    BatchNeverPauses(c, p.request, state.value);
    r := state.RunBatch(c, p.request);
    if r.StageAbort? {
      return Failed(r.error, state.value);
    }
    o := state.React(c, a, req);
  }
}
