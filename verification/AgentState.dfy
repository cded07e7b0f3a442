/**
 A run of the agent: its record, the host's parts as uninterpreted deterministic functions, and
 the stages of the ReAct pipeline as functions from one record to the next.
 */
module AgentState {
  import opened Wrappers
  import opened ToolExecutor

  datatype Role = System | User | Assistant | Reply | OtherRole(name: string)

  datatype Message = Message(role: Role, content: string, toolCallID: string, toolCalls: seq<Call>)

  datatype MemoryMessage = MemoryMessage(role: Role, content: string)

  /** Zero stands for the zero UUID. */
  type RunID = nat

  datatype PolicyContext = PolicyContext(tenantID: string, requestID: string, traceID: string,
                                         labels: map<string, string>)

  /** A request without its run ID, which is all of it that a checkpoint keeps. */
  datatype Request = Request(
    input: string, userID: string, sessionID: string, metadata: map<Key, Value>, allowed: seq<Permission>,
    policyContext: PolicyContext)

  datatype RunRequest = RunRequest(runID: RunID, request: Request)

  datatype Skill = Skill(name: string, description: string, content: string, cacheable: bool, priority: int)

  datatype Block =
    | Block(name: string, priority: int, content: string)
    | OfSkill(skill: Skill)
    | OfFormat(format: string)

  datatype Usage = Usage(inputTokens: int, outputTokens: int)

  datatype Budget = Budget(maxInputTokens: int, maxOutputTokens: int, maxTotalTokens: int)

  datatype ChatRequest = ChatRequest(messages: seq<Message>, tools: map<string, Tool>, maxOutputTokens: int)

  datatype ChatResponse = ChatResponse(content: string, toolCalls: seq<Call>, usage: Usage)

  datatype GuardRequest = GuardRequest(runID: RunID, input: string, metadata: map<Key, Value>,
                                       policyContext: PolicyContext)

  /** Pending takes precedence over Allowed. */
  datatype Decision = Decision(allowed: bool, pending: bool)

  datatype Memory = Memory(
    load: string -> Result<seq<MemoryMessage>, string>,
    save: (string, seq<MemoryMessage>) -> Option<string>)

  type Approver = (nat, Asker, Call) -> Decision

  /**
   What the host configures, apart from its approver. The model and the approver also see how many
   model calls the run has made, so they may answer each call and each batch of one run differently.
   */
  datatype Config = Config(
    llm: (nat, ChatRequest) -> Result<ChatResponse, string>,
    compile: seq<Block> -> Result<string, string>,
    blocks: seq<Block>,
    base: map<string, Tool>,
    behaviour: Behaviour,
    badInput: (Tool, string) -> bool,
    rejection: (map<string, Tool>, Call) -> string,
    policy: (Asker, Call, Permission) -> bool,
    memory: Option<Memory>,
    systemPrompt: Option<RunRequest -> Result<seq<Block>, string>>,
    skills: Option<RunRequest -> Result<seq<Skill>, string>>,
    toolProvider: Option<RunRequest -> Result<seq<Tool>, string>>,
    projector: Option<(seq<Message>, Metadata) -> Result<Option<seq<Message>>, string>>,
    guard: Option<GuardRequest -> bool>,
    outputFormat: Option<string>,
    validOutput: (RunID, string, Metadata) -> Result<string, string>,
    budget: Option<Budget>,
    encodes: Checkpoint -> bool,
    maxIterations: int,
    maxOutputTokens: int)

  datatype Summary = Summary(llmCalls: nat, toolCalls: nat, usedTools: seq<string>, lookup: set<string>)

  /** The parts of the record that a checkpoint does not keep. */
  datatype Scratch = Scratch(compiled: Option<string>, projection: Option<seq<Message>>,
                             lastResponse: Option<ChatResponse>)

  datatype Final = Final(content: string, structured: string, usage: Usage, llmCalls: nat, toolCalls: nat,
                         usedTools: seq<string>)

  /** The run's record; `scoped` holds the tools registered for this run only. */
  datatype State = State(
    runID: RunID,
    iteration: int,
    messages: seq<Message>,
    final: Option<Final>,
    usage: Usage,
    metadata: Metadata,
    promptBlocks: seq<Block>,
    pending: seq<Call>,
    toolResults: seq<Execution>,
    allowed: seq<Permission>,
    summary: Summary,
    startedAt: int,
    scoped: map<string, Tool>,
    scratch: Scratch)

  datatype Checkpoint = Checkpoint(
    version: int, runID: RunID, request: Request, iteration: int, messages: seq<Message>, usage: Usage,
    llmCalls: nat, toolCalls: nat, usedTools: seq<string>, startedAt: int, metadata: Metadata,
    allowed: seq<Permission>, pending: seq<Call>, promptBlocks: seq<Block>)

  datatype Error =
    | InputRejected
    | MaxIterations
    | BudgetExceeded
    | PolicyDenied(tool: string)
    | ApprovalDenied(tool: string)
    | InvalidCheckpoint
    | InvalidResolution
    | OutputInvalid(reason: string)
    | ToolFailure(cause: ToolError)
    | HostError(reason: string)
    | NilMapWrite
    | NotContinued

  /** A stage's result; anything but Next ends the pipeline. */
  datatype Step = Next(state: State) | Break(state: State) | Interrupt(state: State) | Abort(error: Error, state: State)
  {
    predicate IsFailure() { !Next? }
    function PropagateFailure(): Step
      requires IsFailure()
    { this }
    function Extract(): State
      requires !IsFailure()
    { state }
  }

  // ---- Stages that prepare a model call ----

  /** Marking a stage done writes to the metadata map, which panics when the map is nil. */
  function Mark(s: State, flag: Flag): Step {
    if s.metadata.Nil? then Abort(NilMapWrite, s)
    else Next(s.(metadata := Made(s.metadata.entries[Reserved(flag) := True])))
  }

  /** Whether the run has a once-only stage to do at all. */
  predicate Needed(c: Config, rq: Request, flag: Flag) {
    match flag
    case GuardPassed => c.guard.Some?
    case MemoryLoaded => c.memory.Some? && rq.sessionID != ""
    case InputAdded => rq.input != ""
    case SystemPromptLoaded => c.systemPrompt.Some?
    case SkillsLoaded => c.skills.Some?
    case ToolsProvided => c.toolProvider.Some?
    case FormatAdded => c.outputFormat.Some?
  }

  predicate Skips(c: Config, rq: Request, s: State, flag: Flag) {
    !Needed(c, rq, flag) || Has(s.metadata, flag)
  }

  function InputGuard(c: Config, req: RunRequest, s: State): Step {
    if Skips(c, req.request, s, GuardPassed) then Next(s)
    else if !c.guard.value(GuardRequest(s.runID, req.request.input, req.request.metadata,
                                        req.request.policyContext)) then
      Abort(InputRejected, s)
    else
      Mark(if s.metadata.Nil? then s.(metadata := Made(map[])) else s, GuardPassed)
  }

  /** Stored messages carry no tool call IDs, so stored tool messages are dropped. */
  function MemoryStateMessages(loaded: seq<MemoryMessage>): seq<Message> {
    if loaded == [] then []
    else
      (if loaded[0].role == Reply then [] else [Message(loaded[0].role, loaded[0].content, "", [])])
      + MemoryStateMessages(loaded[1..])
  }

  function MemoryLoad(c: Config, req: RunRequest, s: State): Step {
    if Skips(c, req.request, s, MemoryLoaded) then Next(s)
    else match c.memory.value.load(req.request.sessionID)
      case Err(e) => Abort(HostError(e), s)
      case Ok(loaded) => Mark(s.(messages := MemoryStateMessages(loaded) + s.messages), MemoryLoaded)
  }

  function AddInput(c: Config, req: RunRequest, s: State): Step {
    if Skips(c, req.request, s, InputAdded) then Next(s)
    else Mark(s.(messages := s.messages + [Message(User, req.request.input, "", [])]), InputAdded)
  }

  function SystemPrompt(c: Config, req: RunRequest, s: State): Step {
    if Skips(c, req.request, s, SystemPromptLoaded) then Next(s)
    else match c.systemPrompt.value(req)
      case Err(e) => Abort(HostError(e), s)
      case Ok(blocks) => Mark(s.(promptBlocks := s.promptBlocks + blocks), SystemPromptLoaded)
  }

  function SkillBlocks(skills: seq<Skill>): seq<Block> {
    if skills == [] then []
    else (if skills[0].content == "" then [] else [OfSkill(skills[0])]) + SkillBlocks(skills[1..])
  }

  function LoadSkills(c: Config, req: RunRequest, s: State): Step {
    if Skips(c, req.request, s, SkillsLoaded) then Next(s)
    else match c.skills.value(req)
      case Err(e) => Abort(HostError(e), s)
      case Ok(skills) => Mark(s.(promptBlocks := s.promptBlocks + SkillBlocks(skills)), SkillsLoaded)
  }

  /** Registering tools in order; a later tool replaces an earlier one of its name. */
  function Register(scoped: map<string, Tool>, tools: seq<Tool>): map<string, Tool>
    decreases tools
  {
    if tools == [] then scoped else Register(scoped[tools[0].name := tools[0]], tools[1..])
  }

  function ProvideTools(c: Config, req: RunRequest, s: State): Step {
    if Skips(c, req.request, s, ToolsProvided) then Next(s)
    else match c.toolProvider.value(req)
      case Err(e) => Abort(HostError(e), s)
      case Ok(tools) => Mark(s.(scoped := Register(s.scoped, tools)), ToolsProvided)
  }

  function AddFormat(c: Config, req: RunRequest, s: State): Step {
    if Skips(c, req.request, s, FormatAdded) then Next(s)
    else Mark(s.(promptBlocks := s.promptBlocks + [OfFormat(c.outputFormat.value)]), FormatAdded)
  }

  function CompilePrompt(c: Config, s: State): Step {
    if s.scratch.compiled.Some? then Next(s)
    else match c.compile(c.blocks + s.promptBlocks)
      case Err(e) => Abort(HostError(e), s)
      case Ok(text) => Next(s.(scratch := s.scratch.(compiled := Some(text))))
  }

  function CloneMetadata(m: Metadata): Metadata {
    if m.Nil? || m.entries == map[] then Nil else m
  }

  function Project(c: Config, s: State): Step {
    if c.projector.None? then Next(s.(scratch := s.scratch.(projection := None)))
    else match c.projector.value(s.messages, CloneMetadata(s.metadata))
      case Err(e) => Abort(HostError(e), s)
      case Ok(p) => Next(s.(scratch := s.scratch.(projection := p)))
  }

  // ---- The model call ----

  function Registry(c: Config, s: State): map<string, Tool> {
    c.base + s.scoped
  }

  function ChatMessages(s: State): seq<Message> {
    var source := if s.scratch.projection.Some? then s.scratch.projection.value else s.messages;
    if s.scratch.compiled.Some? && s.scratch.compiled.value != "" then
      [Message(System, s.scratch.compiled.value, "", [])] + source
    else source
  }

  function ChatRequestOf(c: Config, s: State): ChatRequest {
    ChatRequest(ChatMessages(s), Registry(c, s), c.maxOutputTokens)
  }

  predicate Rejects(c: Config, tools: map<string, Tool>, call: Call) {
    call.name !in tools || c.badInput(tools[call.name], call.input)
  }

  /** The calls of a response that may go on to policy, approval and execution. */
  function Accepted(c: Config, tools: map<string, Tool>, calls: seq<Call>): seq<Call> {
    if calls == [] then []
    else (if Rejects(c, tools, calls[0]) then [] else [calls[0]]) + Accepted(c, tools, calls[1..])
  }

  /** One immediate reply per call the model must correct. */
  function Rejections(c: Config, tools: map<string, Tool>, calls: seq<Call>): seq<Message> {
    if calls == [] then []
    else
      (if Rejects(c, tools, calls[0]) then [Message(Reply, c.rejection(tools, calls[0]), calls[0].id, [])] else [])
      + Rejections(c, tools, calls[1..])
  }

  /** What a response adds to the history: nothing at all when it is empty. */
  function Turn(c: Config, tools: map<string, Tool>, resp: ChatResponse): seq<Message> {
    if resp.toolCalls != [] then
      [Message(Assistant, resp.content, "", resp.toolCalls)] + Rejections(c, tools, resp.toolCalls)
    else if resp.content != "" then [Message(Assistant, resp.content, "", [])]
    else []
  }

  function Answered(c: Config, s: State, resp: ChatResponse): State {
    s.(messages := s.messages + Turn(c, Registry(c, s), resp),
       usage := Usage(s.usage.inputTokens + resp.usage.inputTokens, s.usage.outputTokens + resp.usage.outputTokens),
       pending := Accepted(c, Registry(c, s), resp.toolCalls),
       summary := s.summary.(llmCalls := s.summary.llmCalls + 1),
       scratch := s.scratch.(lastResponse := Some(resp)))
  }

  function Think(c: Config, s: State): Step {
    match c.llm(s.summary.llmCalls, ChatRequestOf(c, s))
    case Err(e) => Abort(HostError(e), s)
    case Ok(resp) => Next(Answered(c, s, resp))
  }

  // ---- Stages after the model call ----

  predicate WithinBudget(b: Budget, u: Usage) {
    && (b.maxInputTokens > 0 ==> u.inputTokens <= b.maxInputTokens)
    && (b.maxOutputTokens > 0 ==> u.outputTokens <= b.maxOutputTokens)
    && (b.maxTotalTokens > 0 ==> u.inputTokens + u.outputTokens <= b.maxTotalTokens)
  }

  function CheckBudget(c: Config, s: State): Step {
    if c.budget.Some? && !WithinBudget(c.budget.value, s.usage) then Abort(BudgetExceeded, s) else Next(s)
  }

  /** Who asks, as policy and approver see it. */
  datatype Asker = Asker(
    runID: RunID, userID: string, sessionID: string, allowed: seq<Permission>, context: PolicyContext,
    metadata: Metadata)

  function AskerOf(rq: Request, s: State): Asker {
    Asker(s.runID, rq.userID, rq.sessionID, s.allowed, rq.policyContext, s.metadata)
  }

  /** The first denial among the calls, in order. */
  function PolicyDenial(c: Config, tools: map<string, Tool>, who: Asker, calls: seq<Call>): Option<Error> {
    if calls == [] then None
    else if calls[0].name !in tools then Some(ToolFailure(UnknownTool(calls[0].name)))
    else if !c.policy(who, calls[0], tools[calls[0].name].permission) then Some(PolicyDenied(calls[0].name))
    else PolicyDenial(c, tools, who, calls[1..])
  }

  function Policy(c: Config, rq: Request, s: State): Step {
    match PolicyDenial(c, Registry(c, s), AskerOf(rq, s), s.pending)
    case Some(e) => Abort(e, s)
    case None => Next(s)
  }

  datatype Verdict = Granted | Waiting | Refused(tool: string)

  /** The approver is asked call by call and the first call it does not grant decides. */
  function Approvals(approver: Approver, batch: nat, who: Asker, calls: seq<Call>): Verdict {
    if calls == [] then Granted
    else
      var d := approver(batch, who, calls[0]);
      if d.pending then Waiting
      else if !d.allowed then Refused(calls[0].name)
      else Approvals(approver, batch, who, calls[1..])
  }

  function Approval(a: Option<Approver>, rq: Request, s: State): Step {
    if a.None? then Next(s)
    else match Approvals(a.value, s.summary.llmCalls, AskerOf(rq, s), s.pending)
      case Granted => Next(s)
      case Waiting => Interrupt(s)
      case Refused(tool) => Abort(ApprovalDenied(tool), s)
  }

  /** One result counts, and its tool is listed the first time it is used. */
  function RecordOne(summary: Summary, name: string): Summary {
    var counted := summary.(toolCalls := summary.toolCalls + 1);
    if name in counted.lookup then counted
    else counted.(usedTools := counted.usedTools + [name], lookup := counted.lookup + {name})
  }

  function Record(summary: Summary, results: seq<Execution>): Summary
    decreases results
  {
    if results == [] then summary else Record(RecordOne(summary, results[0].call.name), results[1..])
  }

  function Act(c: Config, rq: Request, s: State): Step {
    if s.pending == [] then Next(s)
    else
      var x := Execute(c.behaviour, Registry(c, s), s.pending, Env(rq.userID, rq.sessionID, s.metadata));
      match x.results
      case Err(e) => Abort(ToolFailure(e), s.(metadata := x.metadata))
      case Ok(results) =>
        Next(s.(metadata := x.metadata, summary := Record(s.summary, results), toolResults := results))
  }

  function ReplyContent(x: Execution): string {
    if x.result.None? || x.result.value.silent then "Tool " + x.call.name + " completed."
    else if x.result.value.isError then
      "Tool " + x.call.name + " returned a recoverable error: " + x.result.value.forLLM
      + ". Correct the arguments and try again."
    else x.result.value.forLLM
  }

  function Replies(results: seq<Execution>): (ms: seq<Message>)
    ensures |ms| == |results|
    ensures forall i :: 0 <= i < |ms| ==> ms[i] == Message(Reply, ReplyContent(results[i]), results[i].call.id, [])
  {
    seq(|results|, i requires 0 <= i < |results| => Message(Reply, ReplyContent(results[i]), results[i].call.id, []))
  }

  predicate RejectedOnly(s: State) {
    s.scratch.lastResponse.Some? && s.scratch.lastResponse.value.toolCalls != [] && s.pending == []
  }

  function Observe(s: State): State {
    if s.toolResults == [] && !RejectedOnly(s) then s
    else s.(messages := s.messages + Replies(s.toolResults), toolResults := [], pending := [],
            iteration := s.iteration + 1)
  }

  function Finalize(c: Config, s: State): Step {
    match s.scratch.lastResponse
    case None => Next(s)
    case Some(resp) =>
      if resp.content == "" || resp.toolCalls != [] || s.pending != [] || s.toolResults != [] then Next(s)
      else match c.validOutput(s.runID, resp.content, CloneMetadata(s.metadata))
        case Err(e) => Abort(OutputInvalid(e), s)
        case Ok(structured) =>
          Break(s.(final := Some(Final(resp.content, structured, s.usage, s.summary.llmCalls, s.summary.toolCalls,
                                       s.summary.usedTools))))
  }

  /** Executing an approved batch and answering the model. */
  function ActAndObserve(c: Config, rq: Request, s: State): Step {
    var s :- Act(c, rq, s);
    Next(Observe(s))
  }

  /** Everything between preparing the call and asking the approver. */
  function Decide(c: Config, rq: Request, s: State): Step {
    var s :- Think(c, s);
    var s :- CheckBudget(c, s);
    Policy(c, rq, s)
  }

  // ---- Pipelines ----

  type Stage = State -> Step

  /** Pipeline.Run: the stages in order, up to the first that does not continue. */
  function RunStages(stages: seq<Stage>, s: State): Step
    decreases |stages|
  {
    if stages == [] then Next(s)
    else
      var s :- stages[0](s);
      RunStages(stages[1..], s)
  }

  /** The stages that do their work once per run. */
  function LoadStages(c: Config, req: RunRequest): seq<Stage> {
    [s => InputGuard(c, req, s), s => MemoryLoad(c, req, s), s => AddInput(c, req, s), s => SystemPrompt(c, req, s),
     s => LoadSkills(c, req, s), s => ProvideTools(c, req, s), s => AddFormat(c, req, s)]
  }

  function PromptStages(c: Config): seq<Stage> {
    [s => CompilePrompt(c, s), s => Project(c, s)]
  }

  function DecideStages(c: Config, rq: Request): seq<Stage> {
    [s => Think(c, s), s => CheckBudget(c, s), s => Policy(c, rq, s)]
  }

  function ConcludeStages(c: Config, a: Option<Approver>, rq: Request): seq<Stage> {
    [s => Approval(a, rq, s), s => Act(c, rq, s), s => Next(Observe(s)), s => Finalize(c, s)]
  }

  /** The order of stages in NewReActRunner. */
  function Stages(c: Config, a: Option<Approver>, req: RunRequest): seq<Stage> {
    LoadStages(c, req) + (PromptStages(c) + (DecideStages(c, req.request) + ConcludeStages(c, a, req.request)))
  }

  function Load(c: Config, req: RunRequest, s: State): Step {
    RunStages(LoadStages(c, req), s)
  }

  function Prepare(c: Config, req: RunRequest, s: State): Step {
    var s :- Load(c, req, s);
    var s :- CompilePrompt(c, s);
    Project(c, s)
  }

  /** One pass of the pipeline. */
  function Pass(c: Config, a: Option<Approver>, req: RunRequest, s: State): Step {
    RunStages(Stages(c, a, req), s)
  }

  function Then(r: Step, stages: seq<Stage>): Step {
    if r.Next? then RunStages(stages, r.state) else r
  }

  lemma {:induction false} RunStagesConcat(xs: seq<Stage>, ys: seq<Stage>, s: State)
    ensures RunStages(xs + ys, s) == Then(RunStages(xs, s), ys)
    decreases |xs|
  {
    if xs == [] {
      assert xs + ys == ys;
    } else {
      assert (xs + ys)[0] == xs[0] && (xs + ys)[1..] == xs[1..] + ys;
      var r := xs[0](s);
      if r.Next? {
        RunStagesConcat(xs[1..], ys, r.state);
      }
    }
  }

  lemma RunOneStage(x: Stage, s: State)
    ensures RunStages([x], s) == x(s)
  {
    if x(s).Next? {
      assert RunStages([x][1..], x(s).state) == x(s);
    }
  }

  lemma RunTwoStages(x: Stage, y: Stage, s: State)
    ensures RunStages([x, y], s) == if x(s).Next? then y(x(s).state) else x(s)
  {
    RunStagesConcat([x], [y], s);
    assert [x, y] == [x] + [y];
    RunOneStage(x, s);
    if x(s).Next? {
      RunOneStage(y, x(s).state);
    }
  }

  lemma RunThreeStages(x: Stage, y: Stage, z: Stage, s: State)
    ensures RunStages([x, y, z], s) == Then(RunStages([x, y], s), [z])
  {
    RunStagesConcat([x, y], [z], s);
    assert [x, y, z] == [x, y] + [z];
  }

  /** A pass ends by the approver's verdict, the batch and the final answer. */
  function Conclude(c: Config, a: Option<Approver>, rq: Request, s: State): Step {
    var s :- Approval(a, rq, s);
    var s :- ActAndObserve(c, rq, s);
    Finalize(c, s)
  }

  // ---- Whole runs ----

  datatype Outcome =
    | Finished(state: State, saved: Option<seq<MemoryMessage>>)
    | Paused(state: State)
    | Failed(error: Error, state: State)
    | Rejected(error: Error)

  function Limit(c: Config): nat {
    if c.maxIterations <= 0 then 8 else c.maxIterations
  }

  /** Tool traffic is not remembered across runs. */
  function MemoryMessages(messages: seq<Message>): seq<MemoryMessage> {
    if messages == [] then []
    else
      (if messages[0].toolCalls != [] || messages[0].role == Reply then []
       else [MemoryMessage(messages[0].role, messages[0].content)])
      + MemoryMessages(messages[1..])
  }

  function SaveMemory(c: Config, rq: Request, s: State): Outcome {
    if c.memory.None? || rq.sessionID == "" || s.final.None? then Finished(s, None)
    else
      var messages := MemoryMessages(s.messages);
      match c.memory.value.save(rq.sessionID, messages)
      case Some(e) => Failed(HostError(e), s)
      case None => Finished(s, Some(messages))
  }

  /** ReActRunner.Run's loop with its counter at `i`. */
  function LoopOf(pass: Stage, save: State -> Outcome, limit: nat, s: State, i: int): Outcome
    decreases limit - i
  {
    if i >= limit then Failed(MaxIterations, s)
    else match pass(s)
      case Next(t) => LoopOf(pass, save, limit, t, i + 1)
      case Break(t) => save(t)
      case Interrupt(t) => Paused(t)
      case Abort(e, t) => Failed(e, t)
  }

  function PassStage(c: Config, a: Option<Approver>, req: RunRequest): Stage {
    s => Pass(c, a, req, s)
  }

  function Saver(c: Config, rq: Request): State -> Outcome {
    s => SaveMemory(c, rq, s)
  }

  function Loop(c: Config, a: Option<Approver>, req: RunRequest, s: State, i: int): Outcome {
    LoopOf(PassStage(c, a, req), Saver(c, req.request), Limit(c), s, i)
  }

  function NewState(id: RunID, req: RunRequest, now: int): State {
    State(id, 0, [], None, Usage(0, 0), Made(req.request.metadata), [], [], [], req.request.allowed,
          Summary(0, 0, [], {}), now, map[], Scratch(None, None, None))
  }

  function RunIDOf(req: RunRequest, generated: RunID): RunID {
    if req.runID == 0 then generated else req.runID
  }

  /** A run from the start, with the run ID and the time the host would draw. */
  function Run(c: Config, a: Option<Approver>, req: RunRequest, generated: RunID, now: int): Outcome {
    Loop(c, a, req, NewState(RunIDOf(req, generated), req, now), 0)
  }

  // ---- Checkpoints ----

  predicate ValidCheckpoint(c: Config, p: Checkpoint) {
    && p.version == 1 && p.runID != 0 && p.startedAt != 0 && p.pending != []
    && (forall i :: 0 <= i < |p.pending| ==> p.pending[i].name != "")
    && c.encodes(p)
  }

  function Snapshot(req: RunRequest, s: State): Checkpoint {
    Checkpoint(1, s.runID, req.request, s.iteration, s.messages, s.usage, s.summary.llmCalls, s.summary.toolCalls,
               s.summary.usedTools, s.startedAt, CloneMetadata(s.metadata), s.allowed, s.pending, s.promptBlocks)
  }

  /** The set the restored lookup map holds. */
  function NameSet(names: seq<string>): set<string> {
    set n | n in names
  }

  /** The record restored from a checkpoint, before its tools are registered again. */
  function Restored(p: Checkpoint): State {
    State(p.runID, p.iteration, p.messages, None, p.usage, CloneMetadata(p.metadata), p.promptBlocks, p.pending, [],
          p.allowed, Summary(p.llmCalls, p.toolCalls, p.usedTools, NameSet(p.usedTools)), p.startedAt, map[],
          Scratch(None, None, None))
  }

  /** The tools the provider gives for a request, as a registry of their own. */
  function Provided(c: Config, req: RunRequest): Result<map<string, Tool>, string> {
    if c.toolProvider.None? then Ok(map[])
    else match c.toolProvider.value(req)
      case Err(e) => Err(e)
      case Ok(tools) => Ok(Register(map[], tools))
  }

  /** A restored record has no tools of its own until the provider has given them again. */
  function Rehydrate(c: Config, req: RunRequest, s: State): Step {
    match Provided(c, req)
    case Err(e) => Abort(HostError(e), s)
    case Ok(tools) => Next(s.(scoped := tools))
  }

  /** A host decision on one pending call. */
  datatype Resolution = Resolution(index: int, toolCallID: string, tool: string, allowed: bool)

  predicate Names(calls: seq<Call>, r: Resolution) {
    0 <= r.index < |calls| && r.toolCallID == calls[r.index].id && r.tool == calls[r.index].name
  }

  predicate Decides(rs: seq<Resolution>, k: int) {
    exists j :: 0 <= j < |rs| && rs[j].index == k
  }

  /** The decisions name the calls of the batch, each exactly once. */
  predicate Covers(calls: seq<Call>, rs: seq<Resolution>) {
    && |rs| == |calls|
    && (forall j :: 0 <= j < |rs| ==> Names(calls, rs[j]))
    && (forall k :: 0 <= k < |calls| ==> Decides(rs, k))
  }

  /** The tool refused by the denial with the smallest index. */
  function Denial(calls: seq<Call>, rs: seq<Resolution>, k: nat): Option<string>
    requires k <= |calls|
    decreases |calls| - k
  {
    if k == |calls| then None
    else if exists j :: 0 <= j < |rs| && rs[j].index == k && !rs[j].allowed then Some(calls[k].name)
    else Denial(calls, rs, k + 1)
  }

  function ResolvedApproval(rs: seq<Resolution>, s: State): Step {
    if !Covers(s.pending, rs) then Abort(InvalidResolution, s)
    else match Denial(s.pending, rs, 0)
      case Some(tool) => Abort(ApprovalDenied(tool), s)
      case None => Next(s)
  }

  /** The pipeline that finishes the paused batch. */
  function ResumePass(c: Config, rq: Request, rs: seq<Resolution>, s: State): Step {
    var s :- Policy(c, rq, s);
    var s :- ResolvedApproval(rs, s);
    ActAndObserve(c, rq, s)
  }

  /** Restoring a checkpoint, registering its tools again and finishing its batch; None if the checkpoint is refused. */
  function ResumeBatch(c: Config, p: Checkpoint, rs: seq<Resolution>): Option<Step> {
    if !ValidCheckpoint(c, p) then None
    else
      var s := Restored(p);
      if !Covers(s.pending, rs) then Some(Abort(InvalidResolution, s))
      else match Rehydrate(c, RunRequest(p.runID, p.request), s)
        case Next(t) => Some(ResumePass(c, p.request, rs, t))
        case r => Some(r)
  }

  function Resume(c: Config, a: Option<Approver>, p: Checkpoint, rs: seq<Resolution>): Outcome {
    match ResumeBatch(c, p, rs)
    case None => Rejected(InvalidCheckpoint)
    case Some(Next(t)) => Loop(c, a, RunRequest(p.runID, p.request), t, t.iteration)
    case Some(Abort(e, t)) => Failed(e, t)
    case Some(r) => Failed(NotContinued, r.state)
  }
}
