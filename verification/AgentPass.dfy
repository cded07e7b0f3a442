/** One pass of the ReAct pipeline, taken apart: what its parts are, what they keep and what they count. */
module AgentPass {
  import opened Wrappers
  import opened ToolExecutor
  import opened AgentState

  // ---- The pass as a composition ----

  lemma DecidePart(c: Config, rq: Request, s: State)
    ensures RunStages(DecideStages(c, rq), s) == Decide(c, rq, s)
  {
    var xs := DecideStages(c, rq);
    RunThreeStages(xs[0], xs[1], xs[2], s);
    RunTwoStages(xs[0], xs[1], s);
    assert xs == [xs[0], xs[1], xs[2]];
    if Think(c, s).Next? {
      RunOneStage(xs[2], Think(c, s).state);
    }
  }

  lemma BatchPart(c: Config, a: Option<Approver>, rq: Request, s: State)
    ensures var xs := ConcludeStages(c, a, rq); RunStages([xs[1], xs[2]], s) == ActAndObserve(c, rq, s)
  {
    var xs := ConcludeStages(c, a, rq);
    RunTwoStages(xs[1], xs[2], s);
  }

  lemma EndPart(c: Config, a: Option<Approver>, rq: Request, s: State)
    ensures var xs := ConcludeStages(c, a, rq);
            var b := ActAndObserve(c, rq, s);
            RunStages([xs[1], xs[2]] + [xs[3]], s) == if b.Next? then Finalize(c, b.state) else b
  {
    var xs := ConcludeStages(c, a, rq);
    RunStagesConcat([xs[1], xs[2]], [xs[3]], s);
    BatchPart(c, a, rq, s);
    var b := ActAndObserve(c, rq, s);
    if b.Next? {
      RunOneStage(xs[3], b.state);
    }
  }

  lemma ConcludePart(c: Config, a: Option<Approver>, rq: Request, s: State)
    ensures RunStages(ConcludeStages(c, a, rq), s) == Conclude(c, a, rq, s)
  {
    var xs := ConcludeStages(c, a, rq);
    assert xs == [xs[0]] + ([xs[1], xs[2]] + [xs[3]]);
    RunStagesConcat([xs[0]], [xs[1], xs[2]] + [xs[3]], s);
    RunOneStage(xs[0], s);
    EndPart(c, a, rq, s);
  }

  lemma PromptPart(c: Config, req: RunRequest, s: State)
    ensures Prepare(c, req, s) == Then(Load(c, req, s), PromptStages(c))
  {
    var xs := PromptStages(c);
    var l := Load(c, req, s);
    if l.Next? {
      RunTwoStages(xs[0], xs[1], l.state);
      assert xs == [xs[0], xs[1]];
    }
  }

  /** What follows the preparation of a model call. */
  function Rest(c: Config, a: Option<Approver>, rq: Request, r: Step): Step {
    if r.Next? then
      var d := Decide(c, rq, r.state);
      if d.Next? then Conclude(c, a, rq, d.state) else d
    else r
  }

  /** The pass as the composition of its parts. */
  lemma PassParts(c: Config, a: Option<Approver>, req: RunRequest, s: State)
    ensures Pass(c, a, req, s) == Rest(c, a, req.request, Prepare(c, req, s))
  {
    var rest := DecideStages(c, req.request) + ConcludeStages(c, a, req.request);
    RunStagesConcat(LoadStages(c, req), PromptStages(c) + rest, s);
    PromptPart(c, req, s);
    var l := Load(c, req, s);
    if l.Next? {
      RunStagesConcat(PromptStages(c), rest, l.state);
      var p := Prepare(c, req, s);
      if p.Next? {
        RunStagesConcat(DecideStages(c, req.request), ConcludeStages(c, a, req.request), p.state);
        DecidePart(c, req.request, p.state);
        if Decide(c, req.request, p.state).Next? {
          ConcludePart(c, a, req.request, Decide(c, req.request, p.state).state);
        }
      }
    }
  }

  // ---- The once-only stages ----

  function FlagAt(i: nat): Flag
    requires i < 7
  {
    if i == 0 then GuardPassed else if i == 1 then MemoryLoaded else if i == 2 then InputAdded
    else if i == 3 then SystemPromptLoaded else if i == 4 then SkillsLoaded else if i == 5 then ToolsProvided
    else FormatAdded
  }

  /** What preparing a model call leaves alone. */
  predicate SameTurn(s: State, t: State) {
    && t.runID == s.runID && t.iteration == s.iteration && t.usage == s.usage && t.pending == s.pending
    && t.toolResults == s.toolResults
    && t.summary == s.summary && t.allowed == s.allowed && t.startedAt == s.startedAt && t.final == s.final
  }

  predicate KeepsMarks(s: State, t: State) {
    (s.metadata.Made? ==> t.metadata.Made?) && forall flag :: Has(s.metadata, flag) ==> Has(t.metadata, flag)
  }

  /** Before its stage the run has no tools of its own; after it, those the provider gives for the request. */
  predicate ToolsAt(c: Config, req: RunRequest, i: nat, s: State) {
    if i <= 5 then s.scoped == map[] && !Has(s.metadata, ToolsProvided) else Registered(c, req, s)
  }

  predicate Registered(c: Config, req: RunRequest, s: State) {
    Provided(c, req) == Ok(s.scoped)
  }

  lemma LoadStageKeeps(c: Config, req: RunRequest, i: nat, s: State)
    requires i < 7
    ensures var r := LoadStages(c, req)[i](s);
            SameTurn(s, r.state) && r.state.scratch == s.scratch && !r.Break? && !r.Interrupt?
  {
  }

  lemma LoadStageMarks(c: Config, req: RunRequest, i: nat, s: State)
    requires i < 7
    ensures var r := LoadStages(c, req)[i](s);
            && KeepsMarks(s, r.state)
            && (r.Next? ==> Skips(c, req.request, r.state, FlagAt(i)))
            && (Skips(c, req.request, s, FlagAt(i)) ==> r == Next(s))
  {
  }

  lemma ToolsStage(c: Config, req: RunRequest, i: nat, s: State)
    requires i < 7 && ToolsAt(c, req, i, s)
    ensures var r := LoadStages(c, req)[i](s); r.Next? ==> ToolsAt(c, req, i + 1, r.state)
  {
  }

  function LoadFrom(c: Config, req: RunRequest, i: nat, s: State): Step
    requires i <= 7
  {
    RunStages(LoadStages(c, req)[i..], s)
  }

  lemma LoadFromStep(c: Config, req: RunRequest, i: nat, s: State)
    requires i < 7
    ensures var r := LoadStages(c, req)[i](s);
            LoadFrom(c, req, i, s) == if r.Next? then LoadFrom(c, req, i + 1, r.state) else r
  {
    var xs := LoadStages(c, req);
    assert xs[i..][0] == xs[i] && xs[i..][1..] == xs[i + 1..];
  }

  lemma {:induction false} LoadFromKeeps(c: Config, req: RunRequest, i: nat, s: State)
    requires i <= 7
    ensures var r := LoadFrom(c, req, i, s);
            && SameTurn(s, r.state) && KeepsMarks(s, r.state) && r.state.scratch == s.scratch
            && (r.Next? ==> forall j :: i <= j < 7 ==> Skips(c, req.request, r.state, FlagAt(j)))
            && !r.Break? && !r.Interrupt?
    decreases 7 - i
  {
    if i < 7 {
      LoadFromStep(c, req, i, s);
      LoadStageKeeps(c, req, i, s);
      LoadStageMarks(c, req, i, s);
      var r := LoadStages(c, req)[i](s);
      if r.Next? {
        LoadFromKeeps(c, req, i + 1, r.state);
      }
    }
  }

  lemma {:induction false} LoadFromTools(c: Config, req: RunRequest, i: nat, s: State)
    requires i <= 7 && ToolsAt(c, req, i, s)
    ensures var r := LoadFrom(c, req, i, s); r.Next? ==> Registered(c, req, r.state)
    decreases 7 - i
  {
    if i < 7 {
      LoadFromStep(c, req, i, s);
      ToolsStage(c, req, i, s);
      var r := LoadStages(c, req)[i](s);
      if r.Next? {
        LoadFromTools(c, req, i + 1, r.state);
      }
    }
  }

  lemma {:induction false} LoadFromLoaded(c: Config, req: RunRequest, i: nat, s: State)
    requires i <= 7 && Loaded(c, req.request, s)
    ensures LoadFrom(c, req, i, s) == Next(s)
    decreases 7 - i
  {
    if i < 7 {
      LoadFromStep(c, req, i, s);
      LoadStageMarks(c, req, i, s);
      LoadFromLoaded(c, req, i + 1, s);
    }
  }

  /** Every once-only stage that the run needs has been done. */
  predicate Loaded(c: Config, rq: Request, s: State) {
    s.metadata.Made? && forall flag :: Skips(c, rq, s, flag)
  }

  lemma EveryFlag(c: Config, rq: Request, s: State)
    requires forall j :: 0 <= j < 7 ==> Skips(c, rq, s, FlagAt(j))
    ensures forall flag :: Skips(c, rq, s, flag)
  {
    forall flag ensures Skips(c, rq, s, flag) {
      var j := match flag
        case GuardPassed => 0
        case MemoryLoaded => 1
        case InputAdded => 2
        case SystemPromptLoaded => 3
        case SkillsLoaded => 4
        case ToolsProvided => 5
        case FormatAdded => 6;
      assert flag == FlagAt(j);
    }
  }

  lemma LoadWhole(c: Config, req: RunRequest, s: State)
    ensures Load(c, req, s) == LoadFrom(c, req, 0, s)
  {
    assert LoadStages(c, req)[0..] == LoadStages(c, req);
  }

  /** Loading does each once-only stage, and does nothing more once they are all done. */
  lemma LoadFacts(c: Config, req: RunRequest, s: State)
    ensures var r := Load(c, req, s);
            && SameTurn(s, r.state) && KeepsMarks(s, r.state) && r.state.scratch == s.scratch
            && (r.Next? && s.metadata.Made? ==> Loaded(c, req.request, r.state))
            && (r.Next? && ToolsAt(c, req, 0, s) ==> Registered(c, req, r.state))
            && (Loaded(c, req.request, s) ==> r == Next(s))
            && !r.Break? && !r.Interrupt?
  {
    LoadWhole(c, req, s);
    LoadFromKeeps(c, req, 0, s);
    var r := LoadFrom(c, req, 0, s);
    if r.Next? {
      EveryFlag(c, req.request, r.state);
    }
    if ToolsAt(c, req, 0, s) {
      LoadFromTools(c, req, 0, s);
    }
    if Loaded(c, req.request, s) {
      LoadFromLoaded(c, req, 0, s);
    }
  }

  // ---- Counting ----

  lemma PrepareKeepsTurn(c: Config, req: RunRequest, s: State)
    ensures var r := Prepare(c, req, s); SameTurn(s, r.state) && !r.Break? && !r.Interrupt?
  {
    LoadFacts(c, req, s);
  }

  lemma {:induction false} RecordFacts(summary: Summary, results: seq<Execution>)
    ensures Record(summary, results).llmCalls == summary.llmCalls
    ensures Record(summary, results).toolCalls == summary.toolCalls + |results|
    ensures summary.lookup == NameSet(summary.usedTools)
            ==> Record(summary, results).lookup == NameSet(Record(summary, results).usedTools)
    decreases results
  {
    if results != [] {
      RecordFacts(RecordOne(summary, results[0].call.name), results[1..]);
    }
  }

  lemma DecideFacts(c: Config, rq: Request, s: State)
    ensures var r := Decide(c, rq, s);
            && !r.Break? && !r.Interrupt? && r.state.toolResults == s.toolResults && r.state.iteration == s.iteration
            && r.state.final == s.final && r.state.metadata == s.metadata && r.state.promptBlocks == s.promptBlocks
            && r.state.scoped == s.scoped && r.state.scratch.compiled == s.scratch.compiled
            && r.state.summary.(llmCalls := s.summary.llmCalls) == s.summary
            && (r.Next? ==> && r.state.summary.llmCalls == s.summary.llmCalls + 1 && r.state.scratch.lastResponse.Some?
                            && (r.state.pending != [] ==> r.state.scratch.lastResponse.value.toolCalls != []))
  {
  }

  lemma ActFacts(c: Config, rq: Request, s: State)
    requires s.toolResults == []
    ensures var r := ActAndObserve(c, rq, s);
            && !r.Break? && !r.Interrupt? && r.state.toolResults == [] && r.state.final == s.final
            && r.state.promptBlocks == s.promptBlocks && r.state.scoped == s.scoped && r.state.scratch == s.scratch
            && r.state.summary.llmCalls == s.summary.llmCalls
            && (s.summary.lookup == NameSet(s.summary.usedTools) ==>
                  r.state.summary.lookup == NameSet(r.state.summary.usedTools))
            && (r.Next? ==> r.state.pending == [] || r.state.scratch.lastResponse.None?)
            && (r.Next? ==> r.state.iteration == s.iteration || r.state.iteration == s.iteration + 1)
            && (r.Next? && s.pending != [] ==> r.state.iteration == s.iteration + 1)
  {
    if s.pending != [] {
      var env := Env(rq.userID, rq.sessionID, s.metadata);
      OneResultPerCall(c.behaviour, Registry(c, s), s.pending, env);
      var x := Execute(c.behaviour, Registry(c, s), s.pending, env);
      if x.results.Ok? {
        RecordFacts(s.summary, x.results.value);
      }
    }
  }

  lemma FinalizeFacts(c: Config, s: State)
    ensures var r := Finalize(c, s);
            !r.Interrupt? && (r.Next? ==> r == Next(s)) && (s.pending != [] ==> r == Next(s))
  {
  }

  /** A pass goes on only with its batch executed, and pauses with nothing changed since the model answered. */
  lemma ConcludeEnds(c: Config, a: Option<Approver>, rq: Request, s: State)
    ensures var r := Conclude(c, a, rq, s);
            (r.Next? ==> ActAndObserve(c, rq, s) == r) && (r.Interrupt? ==> r.state == s && Approval(a, rq, s) == r)
  {
    var b := ActAndObserve(c, rq, s);
    if b.Next? {
      FinalizeFacts(c, b.state);
    }
    BatchNeverPauses(c, rq, s);
  }

  lemma BatchNeverPauses(c: Config, rq: Request, s: State)
    ensures var r := ActAndObserve(c, rq, s); !r.Break? && !r.Interrupt?
  {
  }

  /** One model call per pass; the iteration moves on by at most one, and not in a pass that pauses. */
  lemma PassCounts(c: Config, a: Option<Approver>, req: RunRequest, s: State)
    requires s.toolResults == []
    ensures var r := Pass(c, a, req, s);
            && (r.Next? ==> && r.state.summary.llmCalls == s.summary.llmCalls + 1 && r.state.toolResults == []
                            && (r.state.iteration == s.iteration || r.state.iteration == s.iteration + 1))
            && (r.Interrupt? ==> r.state.summary.llmCalls == s.summary.llmCalls + 1 && r.state.iteration == s.iteration)
  {
    PassParts(c, a, req, s);
    PrepareKeepsTurn(c, req, s);
    var p := Prepare(c, req, s);
    if p.Next? {
      DecideFacts(c, req.request, p.state);
      var d := Decide(c, req.request, p.state);
      if d.Next? {
        ConcludeCounts(c, a, req.request, d.state);
      }
    }
  }

  lemma ConcludeCounts(c: Config, a: Option<Approver>, rq: Request, s: State)
    requires s.toolResults == []
    ensures var r := Conclude(c, a, rq, s);
            && (r.Next? ==> && r.state.summary.llmCalls == s.summary.llmCalls && r.state.toolResults == []
                            && (r.state.iteration == s.iteration || r.state.iteration == s.iteration + 1))
            && (r.Interrupt? ==> r.state == s)
  {
    ConcludeEnds(c, a, rq, s);
    if Conclude(c, a, rq, s).Next? {
      ActFacts(c, rq, s);
    }
  }
}
