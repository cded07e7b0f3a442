/**
 Why the iteration limit matters to the comparison: with a limit of two, a model that first
 answers with nothing and then calls a tool is stopped by the limit when the call is allowed at
 once, but gets another pass when the call is approved after a pause.
 */
module AgentEmptyAnswer {
  import opened Wrappers
  import opened ToolExecutor
  import opened AgentState
  import opened AgentPass
  import opened AgentResume
  import opened AgentEquivalence

  const writer := Tool("w", Write, Auto, "")
  const writing := Call("1", "w", "")

  function Host(): Config {
    Config(
      (n: nat, r: ChatRequest) => Ok(ChatResponse("", if n == 0 then [] else [writing], Usage(0, 0))),
      (blocks: seq<Block>) => Ok(""), [], map["w" := writer],
      (tool: Tool, call: Call, env: Env) => Ran(Ok(None), if env.metadata.Made? then env.metadata.entries else map[]),
      (tool: Tool, input: string) => false, (tools: map<string, Tool>, call: Call) => "",
      (who: Asker, call: Call, permission: Permission) => true,
      None, None, None, None, None, None, None,
      (id: RunID, content: string, metadata: Metadata) => Ok(""), None,
      (p: Checkpoint) => true, 2, 0)
  }

  function Waits(): Option<Approver> {
    Some((n: nat, who: Asker, call: Call) => Decision(false, true))
  }

  function Asking(): RunRequest {
    RunRequest(1, Request("x", "", "", map[], [], PolicyContext("", "", "", map[])))
  }

  lemma HostLoads(i: nat, s: State)
    requires i < 7 && s.metadata.Made?
    ensures var r := LoadStages(Host(), Asking())[i](s); r.Next? && r.state.metadata.Made?
  {
  }

  lemma {:induction false} HostLoadsFrom(i: nat, s: State)
    requires i <= 7 && s.metadata.Made?
    ensures LoadFrom(Host(), Asking(), i, s).Next?
    decreases 7 - i
  {
    if i < 7 {
      LoadFromStep(Host(), Asking(), i, s);
      HostLoads(i, s);
      HostLoadsFrom(i + 1, LoadStages(Host(), Asking())[i](s).state);
    }
  }

  lemma HostPrepares(s: State)
    requires s.metadata.Made?
    ensures Prepare(Host(), Asking(), s).Next?
  {
    LoadWhole(Host(), Asking(), s);
    HostLoadsFrom(0, s);
  }

  lemma HostThinks(s: State)
    ensures var r := Think(Host(), s);
            && r.Next?
            && r.state.scratch.lastResponse ==
               Some(ChatResponse("", if s.summary.llmCalls == 0 then [] else [writing], Usage(0, 0)))
            && r.state.pending == (if s.summary.llmCalls == 0 then [] else [writing])
            && r.state.summary.llmCalls == s.summary.llmCalls + 1
            && r.state.toolResults == s.toolResults && r.state.metadata == s.metadata
  {
    var tools := Registry(Host(), s);
    assert "w" in tools;
    assert Accepted(Host(), tools, [writing]) == [writing] + Accepted(Host(), tools, []);
  }

  lemma HostDecides(s: State)
    ensures Decide(Host(), Asking().request, s) == Think(Host(), s)
  {
    HostThinks(s);
    var t := Think(Host(), s).state;
    var tools := Registry(Host(), t);
    assert "w" in tools;
    assert PolicyDenial(Host(), tools, AskerOf(Asking().request, t), []).None?;
    assert [writing][1..] == [];
    assert PolicyDenial(Host(), tools, AskerOf(Asking().request, t), [writing]).None?;
  }

  /** The first pass gets an empty answer and goes on without counting an iteration. */
  lemma FirstPass(s: State)
    requires s.metadata.Made? && s.summary.llmCalls == 0 && s.toolResults == []
    ensures var r := Pass(Host(), Waits(), Asking(), s);
            && r.Next? && r.state.summary.llmCalls == 1 && r.state.iteration == s.iteration
            && r.state.toolResults == [] && r.state.metadata.Made?
  {
    PassParts(Host(), Waits(), Asking(), s);
    PrepareKeepsTurn(Host(), Asking(), s);
    HostPrepares(s);
    LoadFacts(Host(), Asking(), s);
    var p := Prepare(Host(), Asking(), s).state;
    HostThinks(p);
    HostDecides(p);
    DecideFacts(Host(), Asking().request, p);
  }

  /** The second pass stops for approval. */
  lemma SecondPass(s: State)
    requires s.metadata.Made? && s.summary.llmCalls == 1
    ensures var r := Pass(Host(), Waits(), Asking(), s);
            && r.Interrupt? && r.state.summary.llmCalls == 2 && r.state.iteration == s.iteration
            && r.state.pending == [writing]
  {
    PassParts(Host(), Waits(), Asking(), s);
    PrepareKeepsTurn(Host(), Asking(), s);
    HostPrepares(s);
    var p := Prepare(Host(), Asking(), s).state;
    HostThinks(p);
    HostDecides(p);
    DecideFacts(Host(), Asking().request, p);
  }

  lemma RunWaits()
    ensures var r := Run(Host(), Waits(), Asking(), 1, 1);
            r.Paused? && r.state.summary.llmCalls == 2 && r.state.iteration == 0 && r.state.pending == [writing]
  {
    var s := NewState(1, Asking(), 1);
    FirstPass(s);
    var t := Pass(Host(), Waits(), Asking(), s).state;
    SecondPass(t);
    assert Loop(Host(), Waits(), Asking(), t, 1).Paused?;
  }

  lemma BatchRuns(s: State)
    requires s.pending == [writing]
    ensures ActAndObserve(Host(), Asking().request, s).Next?
  {
    var tools := Registry(Host(), s);
    assert "w" in tools;
    assert Missing(tools, [writing]).None?;
    var env := Env("", "", s.metadata);
    var values := RunBatch(Host().behaviour, Resolve(tools, [writing]), [writing], 0, env).values;
    BatchSucceeds(Resolve(tools, [writing]), [writing], 0, env);
    assert FirstError(values).None?;
  }

  lemma {:induction false} BatchSucceeds(tools: seq<Tool>, calls: seq<Call>, start: nat, env: Env)
    requires start <= |tools| == |calls|
    ensures forall i :: 0 <= i < |calls| - start ==>
              RunBatch(Host().behaviour, tools, calls, start, env).values[i] == Ok(None)
    decreases |calls| - start
  {
    if start < |calls| {
      var run, end := Host().behaviour, GroupEnd(tools, start);
      if start < end {
        BatchSucceeds(tools, calls, end,
                      env.(metadata := AfterGroup(env.metadata, RunGroup(run, tools, calls, start, end, env))));
      } else {
        BatchSucceeds(tools, calls, start + 1,
                      env.(metadata := After(env.metadata, run(tools[start], calls[start], env))));
      }
    }
  }

  /** One empty answer before the pause, and the resumed run outlives the run that never paused. */
  lemma EmptyAnswerOutlivesLimit()
    ensures var p := Snapshot(Asking(), Run(Host(), Waits(), Asking(), 1, 1).state);
            var rs := [Resolution(0, "1", "w", true)];
            && Hosted(Host(), Asking(), 1) && Run(Host(), Waits(), Asking(), 1, 1).Paused?
            && ValidCheckpoint(Host(), p) && Covers(p.pending, rs) && AllAllowed(rs)
            && !Same(Resume(Host(), Waits(), p, rs), Run(Host(), AllowAt(Waits(), p.llmCalls), Asking(), 1, 1))
  {
    RunWaits();
    HostIsHosted();
    PausedIsValid();
    RunPauses(Host(), Waits(), Asking(), 1, 1);
    var s := Run(Host(), Waits(), Asking(), 1, 1).state;
    BatchRuns(s);
    ResumeMatchesAllowed(Host(), Waits(), Asking(), 1, 1, [Resolution(0, "1", "w", true)]);
  }

  lemma HostIsHosted()
    ensures Hosted(Host(), Asking(), 1)
  {
  }

  lemma PausedIsValid()
    requires Run(Host(), Waits(), Asking(), 1, 1).Paused?
    requires Run(Host(), Waits(), Asking(), 1, 1).state.pending == [writing]
    ensures var p := Snapshot(Asking(), Run(Host(), Waits(), Asking(), 1, 1).state);
            ValidCheckpoint(Host(), p) && Covers(p.pending, [Resolution(0, "1", "w", true)])
  {
    LoopKeepsStart(Host(), Waits(), Asking(), NewState(1, Asking(), 1), 0);
    var rs := [Resolution(0, "1", "w", true)];
    assert rs[0].index == 0;
    assert Decides(rs, 0);
  }
}
