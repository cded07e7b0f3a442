/**
 What a run tells its model and makes of the answers: the first model call, the record after an answer
 and after a batch, the token budget, and how a finished run's result and memory come about.
 */
module AgentMeaning {
  import opened Wrappers
  import opened ToolExecutor
  import opened AgentState
  import opened AgentPass
  import opened AgentPairing
  import opened AgentGates

  // ---- Lists ----

  function Filter<T>(keep: T -> bool, xs: seq<T>): seq<T> {
    if xs == [] then [] else (if keep(xs[0]) then [xs[0]] else []) + Filter(keep, xs[1..])
  }

  function Map<T, U>(f: T -> U, xs: seq<T>): (ys: seq<U>)
    ensures |ys| == |xs| && forall i :: 0 <= i < |xs| ==> ys[i] == f(xs[i])
  {
    seq(|xs|, i requires 0 <= i < |xs| => f(xs[i]))
  }

  lemma MapHead<T, U>(f: T -> U, x: T, xs: seq<T>)
    ensures Map(f, [x] + xs) == [f(x)] + Map(f, xs)
  {
  }

  /** Loaded history: the stored messages other than tool replies, in order, with role and content only. */
  lemma {:induction false} LoadedIs(loaded: seq<MemoryMessage>)
    ensures MemoryStateMessages(loaded) ==
            Map((m: MemoryMessage) => Message(m.role, m.content, "", []),
                Filter((m: MemoryMessage) => m.role != Reply, loaded))
  {
    if loaded != [] {
      LoadedIs(loaded[1..]);
      MapHead((m: MemoryMessage) => Message(m.role, m.content, "", []), loaded[0],
              Filter((m: MemoryMessage) => m.role != Reply, loaded[1..]));
    }
  }

  /** A message that is neither a tool call nor the reply to one. */
  predicate Plain(m: Message) {
    m.toolCalls == [] && m.role != Reply
  }

  /** Saved history: the messages that neither call tools nor answer a call, in order, with role and content. */
  lemma {:induction false} SavedIs(ms: seq<Message>)
    ensures MemoryMessages(ms) == Map((m: Message) => MemoryMessage(m.role, m.content), Filter(Plain, ms))
  {
    if ms != [] {
      SavedIs(ms[1..]);
      MapHead((m: Message) => MemoryMessage(m.role, m.content), ms[0], Filter(Plain, ms[1..]));
    }
  }

  /** What one run saves, the next run loads whole. */
  lemma {:induction false} SavedLoadsBack(ms: seq<Message>)
    ensures MemoryStateMessages(MemoryMessages(ms)) ==
            Map((m: Message) => Message(m.role, m.content, "", []), Filter(Plain, ms))
  {
    if ms != [] {
      SavedLoadsBack(ms[1..]);
      MapHead((m: Message) => Message(m.role, m.content, "", []), ms[0], Filter(Plain, ms[1..]));
      if Plain(ms[0]) {
        var first, rest := MemoryMessage(ms[0].role, ms[0].content), MemoryMessages(ms[1..]);
        assert MemoryMessages(ms) == [first] + rest && ([first] + rest)[1..] == rest;
      } else {
        assert MemoryMessages(ms) == MemoryMessages(ms[1..]);
      }
    }
  }

  /** The tool a name stands for after registering: the last one of that name. */
  lemma {:induction false} LastRegisteredWins(scoped: map<string, Tool>, tools: seq<Tool>, k: nat)
    requires k < |tools| && forall j :: k < j < |tools| ==> tools[j].name != tools[k].name
    ensures tools[k].name in Register(scoped, tools) && Register(scoped, tools)[tools[k].name] == tools[k]
    decreases tools
  {
    var next := scoped[tools[0].name := tools[0]];
    if k == 0 {
      OthersRegistered(next, tools[1..], tools[0].name);
    } else {
      LastRegisteredWins(next, tools[1..], k - 1);
    }
  }

  /** Registering tools of other names changes nothing about a name. */
  lemma {:induction false} OthersRegistered(scoped: map<string, Tool>, tools: seq<Tool>, name: string)
    requires forall j :: 0 <= j < |tools| ==> tools[j].name != name
    ensures name in Register(scoped, tools) <==> name in scoped
    ensures name in scoped ==> Register(scoped, tools)[name] == scoped[name]
    decreases tools
  {
    if tools != [] {
      OthersRegistered(scoped[tools[0].name := tools[0]], tools[1..], name);
    }
  }

  // ---- The first model call ----

  /** No stage of the run is marked as done in the request already. */
  predicate Unmarked(req: RunRequest) {
    forall flag :: Reserved(flag) !in req.request.metadata
  }

  function Remembered(c: Config, rq: Request): seq<MemoryMessage> {
    if c.memory.Some? && rq.sessionID != "" && c.memory.value.load(rq.sessionID).Ok? then
      c.memory.value.load(rq.sessionID).value
    else []
  }

  /** The history a run starts with: what was remembered of the session, then the user's input. */
  function FirstHistory(c: Config, rq: Request): seq<Message> {
    Map((m: MemoryMessage) => Message(m.role, m.content, "", []),
        Filter((m: MemoryMessage) => m.role != Reply, Remembered(c, rq)))
    + if rq.input == "" then [] else [Message(User, rq.input, "", [])]
  }

  /** The prompt of a run: the agent's blocks, the provider's, the skills with any content, the output format. */
  function FirstBlocks(c: Config, req: RunRequest): seq<Block> {
    (if c.systemPrompt.Some? && c.systemPrompt.value(req).Ok? then c.systemPrompt.value(req).value else [])
    + (if c.skills.Some? && c.skills.value(req).Ok? then
         Map((k: Skill) => OfSkill(k), Filter((k: Skill) => k.content != "", c.skills.value(req).value))
       else [])
    + if c.outputFormat.Some? then [OfFormat(c.outputFormat.value)] else []
  }

  lemma {:induction false} SkillBlocksAre(skills: seq<Skill>)
    ensures SkillBlocks(skills) == Map((k: Skill) => OfSkill(k), Filter((k: Skill) => k.content != "", skills))
  {
    if skills != [] {
      SkillBlocksAre(skills[1..]);
      MapHead((k: Skill) => OfSkill(k), skills[0], Filter((k: Skill) => k.content != "", skills[1..]));
    }
  }

  function InputMessages(rq: Request): seq<Message> {
    if rq.input == "" then [] else [Message(User, rq.input, "", [])]
  }

  /** The history before once-only stage i of a new run. */
  function HistoryAt(c: Config, rq: Request, i: nat): seq<Message> {
    (if i >= 2 then MemoryStateMessages(Remembered(c, rq)) else []) + (if i >= 3 then InputMessages(rq) else [])
  }

  /** The run's own prompt blocks before once-only stage i. */
  function BlocksAt(c: Config, req: RunRequest, i: nat): seq<Block> {
    (if i >= 4 && c.systemPrompt.Some? && c.systemPrompt.value(req).Ok? then c.systemPrompt.value(req).value else [])
    + (if i >= 5 && c.skills.Some? && c.skills.value(req).Ok? then SkillBlocks(c.skills.value(req).value) else [])
    + (if i >= 7 && c.outputFormat.Some? then [OfFormat(c.outputFormat.value)] else [])
  }

  predicate Unstaged(s: State, i: nat) {
    s.metadata.Made? && forall j :: i <= j < 7 ==> !Has(s.metadata, FlagAt(j))
  }

  /** The record before once-only stage i of a new run: what the stages before it have added, and no more. */
  predicate StartedAt(c: Config, req: RunRequest, i: nat, s: State) {
    Unstaged(s, i) && s.messages == HistoryAt(c, req.request, i) && s.promptBlocks == BlocksAt(c, req, i)
  }

  lemma UnstagedStep(c: Config, req: RunRequest, i: nat, s: State)
    requires i < 7 && Unstaged(s, i)
    ensures var r := LoadStages(c, req)[i](s); r.Next? ==> Unstaged(r.state, i + 1)
  {
    assert forall j :: i < j < 7 ==> FlagAt(j) != FlagAt(i);
  }

  lemma HistoryStep(c: Config, req: RunRequest, i: nat, s: State)
    requires i < 7 && Unstaged(s, i) && s.messages == HistoryAt(c, req.request, i)
    ensures var r := LoadStages(c, req)[i](s); r.Next? ==> r.state.messages == HistoryAt(c, req.request, i + 1)
  {
    var r := LoadStages(c, req)[i](s);
    if i == 1 {
      assert FlagAt(1) == MemoryLoaded && LoadStages(c, req)[1](s) == MemoryLoad(c, req, s);
      assert HistoryAt(c, req.request, 1) == [] && HistoryAt(c, req.request, 2) ==
             MemoryStateMessages(Remembered(c, req.request));
    } else if i == 2 {
      assert FlagAt(2) == InputAdded && LoadStages(c, req)[2](s) == AddInput(c, req, s);
      assert HistoryAt(c, req.request, 3) == HistoryAt(c, req.request, 2) + InputMessages(req.request);
    } else {
      OtherStagesKeepMessages(c, req, i, s);
    }
  }

  lemma BlocksGrow(c: Config, req: RunRequest, i: nat)
    ensures i <= 3 ==> BlocksAt(c, req, i) == []
    ensures BlocksAt(c, req, 6) == BlocksAt(c, req, 5)
    ensures BlocksAt(c, req, 4) ==
            if c.systemPrompt.Some? && c.systemPrompt.value(req).Ok? then c.systemPrompt.value(req).value else []
    ensures BlocksAt(c, req, 5) == BlocksAt(c, req, 4)
                                   + if c.skills.Some? && c.skills.value(req).Ok? then
                                       SkillBlocks(c.skills.value(req).value)
                                     else []
    ensures BlocksAt(c, req, 7) == BlocksAt(c, req, 6)
                                   + if c.outputFormat.Some? then [OfFormat(c.outputFormat.value)] else []
  {
  }

  lemma OtherStagesKeepBlocks(c: Config, req: RunRequest, i: nat, s: State)
    requires i < 7 && i != 3 && i != 4 && i != 6
    ensures LoadStages(c, req)[i](s).state.promptBlocks == s.promptBlocks
  {
  }

  /** The blocks that stages 3, 4 and 6 add when they have not run yet. */
  lemma BlockStages(c: Config, req: RunRequest, s: State)
    ensures !Has(s.metadata, SystemPromptLoaded) && SystemPrompt(c, req, s).Next? ==>
              SystemPrompt(c, req, s).state.promptBlocks == s.promptBlocks
              + if c.systemPrompt.Some? && c.systemPrompt.value(req).Ok? then c.systemPrompt.value(req).value else []
    ensures !Has(s.metadata, SkillsLoaded) && LoadSkills(c, req, s).Next? ==>
              LoadSkills(c, req, s).state.promptBlocks == s.promptBlocks
              + if c.skills.Some? && c.skills.value(req).Ok? then SkillBlocks(c.skills.value(req).value) else []
    ensures !Has(s.metadata, FormatAdded) && AddFormat(c, req, s).Next? ==>
              AddFormat(c, req, s).state.promptBlocks == s.promptBlocks
              + if c.outputFormat.Some? then [OfFormat(c.outputFormat.value)] else []
  {
  }

  lemma BlocksStep(c: Config, req: RunRequest, i: nat, s: State)
    requires i < 7 && Unstaged(s, i) && s.promptBlocks == BlocksAt(c, req, i)
    ensures var r := LoadStages(c, req)[i](s); r.Next? ==> r.state.promptBlocks == BlocksAt(c, req, i + 1)
  {
    BlocksGrow(c, req, i);
    BlockStages(c, req, s);
    assert !Has(s.metadata, FlagAt(i));
    if i != 3 && i != 4 && i != 6 {
      OtherStagesKeepBlocks(c, req, i, s);
    }
  }

  lemma StartStage(c: Config, req: RunRequest, i: nat, s: State)
    requires i < 7 && StartedAt(c, req, i, s)
    ensures var r := LoadStages(c, req)[i](s); r.Next? ==> StartedAt(c, req, i + 1, r.state)
  {
    UnstagedStep(c, req, i, s);
    HistoryStep(c, req, i, s);
    BlocksStep(c, req, i, s);
  }

  lemma GuardStage(c: Config, req: RunRequest, s: State)
    requires Unstaged(s, 0) && c.guard.Some?
    ensures LoadStages(c, req)[0](s).Next? <==>
            c.guard.value(GuardRequest(s.runID, req.request.input, req.request.metadata, req.request.policyContext))
    ensures !LoadStages(c, req)[0](s).Next? ==> LoadStages(c, req)[0](s) == Abort(InputRejected, s)
  {
    assert FlagAt(0) == GuardPassed;
  }

  lemma {:induction false} StartFrom(c: Config, req: RunRequest, i: nat, s: State)
    requires i <= 7 && StartedAt(c, req, i, s)
    ensures var r := LoadFrom(c, req, i, s); r.Next? ==> StartedAt(c, req, 7, r.state)
    decreases 7 - i
  {
    if i < 7 {
      LoadFromStep(c, req, i, s);
      StartStage(c, req, i, s);
      var r := LoadStages(c, req)[i](s);
      if r.Next? {
        StartFrom(c, req, i + 1, r.state);
      }
    }
  }

  lemma NewStarts(c: Config, req: RunRequest, id: RunID, now: int)
    requires Unmarked(req)
    ensures StartedAt(c, req, 0, NewState(id, req, now))
  {
  }

  /** What a model call is told: the compiled prompt if there is any, then the projected history or the history. */
  ghost predicate Tells(c: Config, s: State, told: ChatRequest, prompt: string, history: seq<Message>) {
    && told.maxOutputTokens == c.maxOutputTokens
    && (forall name :: name in told.tools <==> ToolFor(c, s, name).Some?)
    && (forall name :: name in told.tools ==> told.tools[name] == ToolFor(c, s, name).value)
    && var shown := if c.projector.None? then Ok(None) else c.projector.value(history, CloneMetadata(s.metadata));
    && shown.Ok?
    && told.messages == (if prompt == "" then [] else [Message(System, prompt, "", [])])
                        + (if shown.value.Some? then shown.value.value else history)
  }

  /**
   The first model call of a run is told the agent's and the run's prompt blocks, compiled, and the remembered history
   followed by the input, and is offered the agent's tools and the run's own.
   */
  lemma FirstCallTells(c: Config, req: RunRequest, id: RunID, now: int)
    requires Unmarked(req) && Prepare(c, req, NewState(id, req, now)).Next?
    ensures var p := Prepare(c, req, NewState(id, req, now)).state;
            && p.messages == FirstHistory(c, req.request) && Provided(c, req) == Ok(p.scoped)
            && c.compile(c.blocks + FirstBlocks(c, req)).Ok?
            && Tells(c, p, ChatRequestOf(c, p), c.compile(c.blocks + FirstBlocks(c, req)).value, p.messages)
  {
    var s := NewState(id, req, now);
    NewStarts(c, req, id, now);
    LoadWhole(c, req, s);
    StartFrom(c, req, 0, s);
    LoadFacts(c, req, s);
    LoadedIs(Remembered(c, req.request));
    if c.skills.Some? && c.skills.value(req).Ok? {
      SkillBlocksAre(c.skills.value(req).value);
    }
    var l := Load(c, req, s).state;
    assert l.messages == FirstHistory(c, req.request) && l.promptBlocks == FirstBlocks(c, req);
    PreparedTells(c, req, s);
  }

  /** A call whose prompt is not compiled yet. */
  lemma PreparedTells(c: Config, req: RunRequest, s: State)
    requires Prepare(c, req, s).Next? && s.scratch.compiled.None?
    ensures var l, p := Load(c, req, s), Prepare(c, req, s).state;
            && l.Next? && p == l.state.(scratch := p.scratch) && c.compile(c.blocks + p.promptBlocks).Ok?
            && Tells(c, p, ChatRequestOf(c, p), c.compile(c.blocks + p.promptBlocks).value, p.messages)
  {
    LoadFacts(c, req, s);
  }

  /** A rejected input ends the run at once: nothing is loaded and the model is never called. */
  lemma GuardStops(c: Config, a: Option<Approver>, req: RunRequest, generated: RunID, now: int)
    requires Unmarked(req) && c.guard.Some?
    requires !c.guard.value(GuardRequest(RunIDOf(req, generated), req.request.input, req.request.metadata,
                                         req.request.policyContext))
    ensures var s := NewState(RunIDOf(req, generated), req, now);
            Run(c, a, req, generated, now) == Failed(InputRejected, s) && ModelCalls(c, a, req, s, 0) == []
  {
    var s := NewState(RunIDOf(req, generated), req, now);
    NewStarts(c, req, s.runID, now);
    LoadWhole(c, req, s);
    LoadFromStep(c, req, 0, s);
    GuardStage(c, req, s);
    PassParts(c, a, req, s);
    assert PassStage(c, a, req)(s) == Abort(InputRejected, s);
    assert Asks(c, req)(s) == [];
  }

  // ---- Answers and batches ----

  /** The calls the model must correct, and the others. */
  predicate Unusable(c: Config, s: State, call: Call) {
    ToolFor(c, s, call.name).None? || c.badInput(ToolFor(c, s, call.name).value, call.input)
  }

  function CallTest(c: Config, s: State, usable: bool): Call -> bool {
    call => Unusable(c, s, call) != usable
  }

  function CorrectionOf(c: Config, s: State): Call -> Message {
    call => Message(Reply, c.rejection(c.base + s.scoped, call), call.id, [])
  }

  lemma {:induction false} ScreenedIs(c: Config, s: State, calls: seq<Call>)
    ensures Accepted(c, Registry(c, s), calls) == Filter(CallTest(c, s, true), calls)
    ensures Rejections(c, Registry(c, s), calls) == Map(CorrectionOf(c, s), Filter(CallTest(c, s, false), calls))
  {
    if calls != [] {
      ScreenedIs(c, s, calls[1..]);
      MapHead(CorrectionOf(c, s), calls[0], Filter(CallTest(c, s, false), calls[1..]));
      assert Rejects(c, Registry(c, s), calls[0]) == Unusable(c, s, calls[0]);
    }
  }

  /** The answer adds one message if it says anything, and a correction for each call that cannot be used. */
  function Added(c: Config, s: State, resp: ChatResponse): seq<Message> {
    (if resp.content == "" && resp.toolCalls == [] then [] else [Message(Assistant, resp.content, "", resp.toolCalls)])
    + Map(CorrectionOf(c, s), Filter(CallTest(c, s, false), resp.toolCalls))
  }

  /**
   After an answer: its message and corrections are appended, its other calls wait, its tokens and one model call are
   counted, and nothing else has changed. A model that fails ends the pass with the record as it was.
   */
  lemma AnswerMeans(c: Config, s: State)
    ensures var answer := c.llm(s.summary.llmCalls, ChatRequestOf(c, s));
            match answer
            case Err(e) => Think(c, s) == Abort(HostError(e), s)
            case Ok(resp) =>
              Think(c, s) ==
              Next(s.(messages := s.messages + Added(c, s, resp),
                      pending := Filter(CallTest(c, s, true), resp.toolCalls),
                      usage := Usage(resp.usage.inputTokens + s.usage.inputTokens,
                                     resp.usage.outputTokens + s.usage.outputTokens),
                      summary := s.summary.(llmCalls := 1 + s.summary.llmCalls),
                      scratch := s.scratch.(lastResponse := Some(resp))))
  {
    var answer := c.llm(s.summary.llmCalls, ChatRequestOf(c, s));
    if answer.Ok? {
      ScreenedIs(c, s, answer.value.toolCalls);
    }
  }

  /** What the model is told about a result: a silent or missing one is not shown, an error is marked as one. */
  ghost predicate Reports(x: Execution, m: Message) {
    && m.role == Reply && m.toolCallID == x.call.id && m.toolCalls == []
    && (x.result.None? || x.result.value.silent ==> m.content == "Tool " + x.call.name + " completed.")
    && (x.result.Some? && !x.result.value.silent && !x.result.value.isError ==> m.content == x.result.value.forLLM)
    && (x.result.Some? && !x.result.value.silent && x.result.value.isError ==>
          m.content == "Tool " + x.call.name + " returned a recoverable error: " + x.result.value.forLLM
                       + ". Correct the arguments and try again.")
  }

  /** The used tools after a batch: those before and those of the batch, each once. */
  lemma {:induction false} UsedToolsAre(summary: Summary, results: seq<Execution>)
    requires summary.lookup == NameSet(summary.usedTools) && NoRepeats(summary.usedTools)
    ensures var after := Record(summary, results);
            && after.lookup == NameSet(after.usedTools) && NoRepeats(after.usedTools)
            && summary.usedTools <= after.usedTools && after.toolCalls == summary.toolCalls + |results|
            && forall n :: n in after.usedTools <==>
                             n in summary.usedTools || exists x :: x in results && x.call.name == n
    decreases results
  {
    if results != [] {
      var next := RecordOne(summary, results[0].call.name);
      assert results[0].call.name in NameSet(next.usedTools);
      UsedToolsAre(next, results[1..]);
      assert results == [results[0]] + results[1..];
      assert results[0] in results;
    }
  }

  predicate NoRepeats(names: seq<string>) {
    forall i, j :: 0 <= i < j < |names| ==> names[i] != names[j]
  }

  /**
   Without a waiting batch nothing is executed; the iteration advances if the answer's calls were all to be corrected,
   and nothing changes otherwise.
   */
  lemma NoBatchMeans(c: Config, rq: Request, s: State)
    requires s.pending == [] && s.toolResults == []
    ensures var corrected := s.scratch.lastResponse.Some? && s.scratch.lastResponse.value.toolCalls != [];
            ActAndObserve(c, rq, s) == Next(if corrected then s.(iteration := s.iteration + 1) else s)
  {
    assert s.messages + [] == s.messages;
  }

  /**
   Executing a waiting batch: a failing tool ends the pass; otherwise each call's result is reported in call order,
   every result is counted, the batch is cleared and the iteration advances by one.
   */
  lemma BatchMeans(c: Config, rq: Request, s: State)
    requires s.pending != [] && s.toolResults == []
    ensures var x := Execute(c.behaviour, Registry(c, s), s.pending, Env(rq.userID, rq.sessionID, s.metadata));
            var r := ActAndObserve(c, rq, s);
            match x.results
            case Err(e) => r == Abort(ToolFailure(e), s.(metadata := x.metadata))
            case Ok(results) =>
              && r.Next?
              && r.state == s.(messages := r.state.messages, metadata := x.metadata, summary := r.state.summary,
                               pending := [], iteration := s.iteration + 1)
              && r.state.summary.toolCalls == s.summary.toolCalls + |s.pending|
              && |results| == |s.pending| && |r.state.messages| == |s.messages| + |results|
              && s.messages <= r.state.messages
              && forall i :: 0 <= i < |results| ==>
                   results[i].call == s.pending[i] && Reports(results[i], r.state.messages[|s.messages| + i])
  {
    var env := Env(rq.userID, rq.sessionID, s.metadata);
    OneResultPerCall(c.behaviour, Registry(c, s), s.pending, env);
    var x := Execute(c.behaviour, Registry(c, s), s.pending, env);
    if x.results.Ok? {
      RecordFacts(s.summary, x.results.value);
      var acted := s.(metadata := x.metadata, summary := Record(s.summary, x.results.value),
                      toolResults := x.results.value);
      assert Act(c, rq, s) == Next(acted);
      assert Observe(acted).messages == s.messages + Replies(x.results.value);
    }
  }
}
