/**
 Whole runs with pauses compared with runs that never paused, and the exact condition under
 which they agree: the iteration limit counts a resumed run from its iteration number, so model
 answers that were empty before the pause are not counted again.
 */
module AgentEquivalence {
  import opened Wrappers
  import opened ToolExecutor
  import opened AgentState
  import opened AgentPass
  import opened AgentResume

  predicate HitsLimit(o: Outcome) {
    o.Failed? && o.error == MaxIterations
  }

  // ---- The loop counter ----

  /** A run that ends by itself ends the same way with more passes to spare. */
  lemma {:induction false} LoopOfEarlier(pass: Stage, save: State -> Outcome, limit: nat, s: State, i: int, j: int)
    requires j <= i && !HitsLimit(LoopOf(pass, save, limit, s, i))
    ensures LoopOf(pass, save, limit, s, j) == LoopOf(pass, save, limit, s, i)
    decreases limit - i
  {
    if pass(s).Next? {
      LoopOfEarlier(pass, save, limit, pass(s).state, i + 1, j + 1);
    }
  }

  ghost predicate NeverHitsLimit(pass: Stage, save: State -> Outcome) {
    && (forall s :: pass(s).Abort? ==> pass(s).error != MaxIterations)
    && (forall s :: !HitsLimit(save(s)))
  }

  /** A run stopped by the limit goes on from where it stopped when it has more passes. */
  lemma {:induction false} LoopOfBeyond(pass: Stage, save: State -> Outcome, limit: nat, s: State, i: int, j: int)
    requires j <= i <= limit && HitsLimit(LoopOf(pass, save, limit, s, i)) && NeverHitsLimit(pass, save)
    ensures var z := LoopOf(pass, save, limit, s, i).state;
            LoopOf(pass, save, limit, s, j) == LoopOf(pass, save, limit, z, j + (limit - i))
    decreases limit - i
  {
    if i < limit {
      LoopOfBeyond(pass, save, limit, pass(s).state, i + 1, j + 1);
    }
  }

  lemma LoadStageErrors(c: Config, req: RunRequest, i: nat, s: State)
    requires i < 7
    ensures var r := LoadStages(c, req)[i](s); r.Abort? ==> r.error != MaxIterations
  {
  }

  lemma {:induction false} LoadErrors(c: Config, req: RunRequest, i: nat, s: State)
    requires i <= 7
    ensures var r := LoadFrom(c, req, i, s); r.Abort? ==> r.error != MaxIterations
    decreases 7 - i
  {
    if i < 7 {
      LoadFromStep(c, req, i, s);
      LoadStageErrors(c, req, i, s);
      var r := LoadStages(c, req)[i](s);
      if r.Next? {
        LoadErrors(c, req, i + 1, r.state);
      }
    }
  }

  lemma {:induction false} PolicyErrors(c: Config, tools: map<string, Tool>, who: Asker, calls: seq<Call>)
    ensures PolicyDenial(c, tools, who, calls) != Some(MaxIterations)
  {
    if calls != [] {
      PolicyErrors(c, tools, who, calls[1..]);
    }
  }

  lemma DecideErrors(c: Config, rq: Request, s: State)
    ensures var r := Decide(c, rq, s); r.Abort? ==> r.error != MaxIterations
  {
    if Think(c, s).Next? {
      var t := Think(c, s).state;
      PolicyErrors(c, Registry(c, t), AskerOf(rq, t), t.pending);
    }
  }

  lemma ConcludeErrors(c: Config, a: Option<Approver>, rq: Request, s: State)
    ensures var r := Conclude(c, a, rq, s); r.Abort? ==> r.error != MaxIterations
  {
  }

  /** Only the loop itself reports the iteration limit. */
  lemma PassErrors(c: Config, a: Option<Approver>, req: RunRequest, s: State)
    ensures var r := Pass(c, a, req, s); r.Abort? ==> r.error != MaxIterations
  {
    PassParts(c, a, req, s);
    LoadWhole(c, req, s);
    LoadErrors(c, req, 0, s);
    var p := Prepare(c, req, s);
    if p.Next? {
      DecideErrors(c, req.request, p.state);
      if Decide(c, req.request, p.state).Next? {
        ConcludeErrors(c, a, req.request, Decide(c, req.request, p.state).state);
      }
    }
  }

  lemma PassNeverHitsLimit(c: Config, a: Option<Approver>, req: RunRequest)
    ensures NeverHitsLimit(PassStage(c, a, req), Saver(c, req.request))
  {
    forall s ensures PassStage(c, a, req)(s).Abort? ==> PassStage(c, a, req)(s).error != MaxIterations {
      PassErrors(c, a, req, s);
    }
  }

  /** A run stopped by the limit has made every model call it was allowed. */
  lemma {:induction false} LimitCounts(c: Config, a: Option<Approver>, req: RunRequest, s: State, i: int)
    requires s.toolResults == [] && i <= Limit(c) && HitsLimit(Loop(c, a, req, s, i))
    ensures var z := Loop(c, a, req, s, i).state;
            z.toolResults == [] && z.summary.llmCalls == s.summary.llmCalls + (Limit(c) - i)
    decreases Limit(c) - i
  {
    if i < Limit(c) {
      PassErrors(c, a, req, s);
      PassCounts(c, a, req, s);
      LimitCounts(c, a, req, Pass(c, a, req, s).state, i + 1);
    }
  }

  /** Starting the counter lower changes the end of a run if and only if the limit ended it. */
  lemma EarlierIff(c: Config, a: Option<Approver>, req: RunRequest, s: State, i: int, j: int)
    requires s.toolResults == [] && j <= i <= Limit(c)
    ensures Same(Loop(c, a, req, s, j), Loop(c, a, req, s, i)) <==> (j == i || !HitsLimit(Loop(c, a, req, s, i)))
  {
    var pass, save := PassStage(c, a, req), Saver(c, req.request);
    if j < i && !HitsLimit(Loop(c, a, req, s, i)) {
      LoopOfEarlier(pass, save, Limit(c), s, i, j);
    } else if j < i {
      PassNeverHitsLimit(c, a, req);
      LoopOfBeyond(pass, save, Limit(c), s, i, j);
      LimitCounts(c, a, req, s, i);
      var z := Loop(c, a, req, s, i).state;
      LaterDiffers(c, a, req, z, j + (Limit(c) - i));
    }
  }

  lemma LaterDiffers(c: Config, a: Option<Approver>, req: RunRequest, z: State, i: int)
    requires z.toolResults == [] && i < Limit(c)
    ensures !Same(Loop(c, a, req, z, i), Failed(MaxIterations, z))
  {
    if HitsLimit(Loop(c, a, req, z, i)) {
      LimitCounts(c, a, req, z, i);
    }
  }

  // ---- One pause ----

  /** The rest of a run after a step that is the result of its batch, with the loop counter then at `i`. */
  function AfterStep(pass: Stage, save: State -> Outcome, limit: nat, r: Step, i: int): Outcome {
    match r
    case Next(q) => LoopOf(pass, save, limit, q, i)
    case Abort(e, t) => Failed(e, t)
    case _ => Failed(NotContinued, r.state)
  }

  /** What remains of a run once its waiting batch is allowed. */
  function AfterBatch(c: Config, a: Option<Approver>, req: RunRequest, p: State, i: int): Outcome {
    AfterStep(PassStage(c, a, req), Saver(c, req.request), Limit(c), ActAndObserve(c, req.request, p), i)
  }

  ghost predicate Going(c: Config, req: RunRequest, s: State) {
    Unstarted(c, req, s) || Ready(c, req, s)
  }

  /** A pass of a run that is going leaves it going or waiting, and counts its model call. */
  ghost predicate Goes(c: Config, req: RunRequest, s: State, r: Step) {
    && (r.Next? ==> && Going(c, req, r.state) && r.state.summary.llmCalls == s.summary.llmCalls + 1
                    && r.state.iteration <= s.iteration + 1)
    && (r.Interrupt? ==> && Awaiting(c, req, r.state) && r.state.summary.llmCalls == s.summary.llmCalls + 1
                         && r.state.iteration == s.iteration)
  }

  lemma PassGoes(c: Config, a: Option<Approver>, req: RunRequest, s: State)
    requires KeepsFlags(c.behaviour) && Going(c, req, s)
    ensures Goes(c, req, s, Pass(c, a, req, s))
  {
    PassReady(c, a, req, s);
    PassCounts(c, a, req, s);
  }

  /** What a run that paused at p, having started a loop at s, has counted. */
  ghost predicate Counted(limit: nat, s: State, p: State, i: int) {
    && s.summary.llmCalls < p.summary.llmCalls
    && p.iteration - s.iteration < p.summary.llmCalls - s.summary.llmCalls
    && i + (p.summary.llmCalls - s.summary.llmCalls) <= limit
  }

  lemma {:induction false} PausedOf(pass: Stage, save: State -> Outcome, limit: nat, c: Config, req: RunRequest,
                                    s: State, i: int)
    requires Going(c, req, s) && LoopOf(pass, save, limit, s, i).Paused?
    requires forall t :: Going(c, req, t) ==> Goes(c, req, t, pass(t))
    requires forall t :: !save(t).Paused?
    ensures var p := LoopOf(pass, save, limit, s, i).state; Awaiting(c, req, p) && Counted(limit, s, p, i)
    decreases limit - i
  {
    assert Goes(c, req, s, pass(s));
    if pass(s).Next? {
      PausedOf(pass, save, limit, c, req, pass(s).state, i + 1);
    }
  }

  lemma PausedAwaits(c: Config, a: Option<Approver>, req: RunRequest, s: State, i: int)
    requires KeepsFlags(c.behaviour) && Going(c, req, s) && Loop(c, a, req, s, i).Paused?
    ensures var p := Loop(c, a, req, s, i).state; Awaiting(c, req, p) && Counted(Limit(c), s, p, i)
  {
    forall t | Going(c, req, t) ensures Goes(c, req, t, PassStage(c, a, req)(t)) {
      PassGoes(c, a, req, t);
    }
    PausedOf(PassStage(c, a, req), Saver(c, req.request), Limit(c), c, req, s, i);
  }

  /** The pass `g` is the pass `f`, except that it runs the batch with number n where f waits. */
  ghost predicate Allows(f: Stage, g: Stage, batch: Stage, n: nat, s: State) {
    && (s.summary.llmCalls + 1 != n ==> g(s) == f(s))
    && (s.summary.llmCalls + 1 == n && f(s).Interrupt? ==> g(s) == batch(f(s).state))
  }

  lemma {:induction false} AllowedOf(f: Stage, g: Stage, batch: Stage, save: State -> Outcome, limit: nat, c: Config,
                                     req: RunRequest, s: State, i: int)
    requires Going(c, req, s) && LoopOf(f, save, limit, s, i).Paused?
    requires forall t :: Going(c, req, t) ==> Goes(c, req, t, f(t))
    requires var n := LoopOf(f, save, limit, s, i).state.summary.llmCalls;
             forall t :: Going(c, req, t) ==> Allows(f, g, batch, n, t)
    requires forall t :: !save(t).Paused? && !batch(t).Break? && !batch(t).Interrupt?
    ensures var p := LoopOf(f, save, limit, s, i).state;
            LoopOf(g, save, limit, s, i)
            == AfterStep(g, save, limit, batch(p), i + (p.summary.llmCalls - s.summary.llmCalls))
    decreases limit - i
  {
    var p := LoopOf(f, save, limit, s, i).state;
    assert Goes(c, req, s, f(s)) && Allows(f, g, batch, p.summary.llmCalls, s);
    if f(s).Next? {
      PausedOf(f, save, limit, c, req, f(s).state, i + 1);
      AllowedOf(f, g, batch, save, limit, c, req, f(s).state, i + 1);
    }
  }

  function BatchStage(c: Config, rq: Request): Stage {
    s => ActAndObserve(c, rq, s)
  }

  lemma PassAllows(c: Config, a: Option<Approver>, b: Option<Approver>, req: RunRequest, n: nat, s: State)
    requires KeepsFlags(c.behaviour) && Going(c, req, s) && b == AllowAt(a, n)
    ensures Allows(PassStage(c, a, req), PassStage(c, b, req), BatchStage(c, req.request), n, s)
  {
    if s.summary.llmCalls + 1 != n {
      PassAgree(c, a, b, req, s);
    } else if Pass(c, a, req, s).Interrupt? {
      PassGoes(c, a, req, s);
      AllowedPass(c, a, b, req, s);
    }
  }

  /** The same run with the waiting batch allowed at once. */
  lemma AllowedLoop(c: Config, a: Option<Approver>, b: Option<Approver>, req: RunRequest, s: State, i: int)
    requires KeepsFlags(c.behaviour) && Going(c, req, s) && Loop(c, a, req, s, i).Paused?
    requires b == AllowAt(a, Loop(c, a, req, s, i).state.summary.llmCalls)
    ensures var p := Loop(c, a, req, s, i).state;
            Loop(c, b, req, s, i) == AfterBatch(c, b, req, p, i + (p.summary.llmCalls - s.summary.llmCalls))
  {
    var f, g, batch := PassStage(c, a, req), PassStage(c, b, req), BatchStage(c, req.request);
    var n := Loop(c, a, req, s, i).state.summary.llmCalls;
    forall t | Going(c, req, t) ensures Goes(c, req, t, f(t)) && Allows(f, g, batch, n, t) {
      PassGoes(c, a, req, t);
      PassAllows(c, a, b, req, n, t);
    }
    forall t ensures !batch(t).Break? && !batch(t).Interrupt? {
      BatchNeverPauses(c, req.request, t);
    }
    AllowedOf(f, g, batch, Saver(c, req.request), Limit(c), c, req, s, i);
  }

  /** A resumed loop against the loop that never stopped, whose counter may be ahead. */
  lemma ResumedLoop(c: Config, a: Option<Approver>, b: Option<Approver>, req: RunRequest, req': RunRequest, q: State,
                    i: int)
    requires KeepsFlags(c.behaviour) && Ready(c, req, q) && req'.request == req.request && Registered(c, req', q)
    requires b == AllowAt(a, q.summary.llmCalls) && q.iteration <= i <= Limit(c)
    ensures Same(Loop(c, a, req', Strip(q), q.iteration), Loop(c, b, req, q, i))
            <==> (q.iteration == i || !HitsLimit(Loop(c, b, req, q, i)))
  {
    LoopRestored(c, a, req, req', q, q.iteration);
    LoopAgree(c, a, b, req, q, q.iteration);
    EarlierIff(c, b, req, q, i, q.iteration);
  }

  lemma ResumeAfterBatch(c: Config, a: Option<Approver>, b: Option<Approver>, req: RunRequest, p: State,
                         rs: seq<Resolution>, i: int)
    requires KeepsFlags(c.behaviour) && Awaiting(c, req, p) && req.request.input != ""
    requires Registered(c, RunRequest(p.runID, req.request), p)
    requires ValidCheckpoint(c, Snapshot(req, p)) && Covers(p.pending, rs) && AllAllowed(rs)
    requires b == AllowAt(a, p.summary.llmCalls) && p.iteration + 1 <= i <= Limit(c)
    ensures Same(Resume(c, a, Snapshot(req, p), rs), AfterBatch(c, b, req, p, i))
            <==> (p.iteration + 1 == i || !HitsLimit(AfterBatch(c, b, req, p, i)))
  {
    ResumedBatch(c, req, p, rs);
    var r := ActAndObserve(c, req.request, p);
    ActFacts(c, req.request, p);
    if r.Next? {
      ActReady(c, req, p);
      ResumedLoop(c, a, b, req, RunRequest(p.runID, req.request), r.state, i);
    } else {
      BatchErrors(c, req.request, p);
    }
  }

  lemma BatchErrors(c: Config, rq: Request, s: State)
    ensures var r := ActAndObserve(c, rq, s); r.Abort? ==> r.error != MaxIterations
  {
  }

  /** What the host must provide for pausing to be invisible. */
  ghost predicate Hosted(c: Config, req: RunRequest, id: RunID) {
    && req.request.input != ""
    && KeepsFlags(c.behaviour)
    && !Has(Made(req.request.metadata), ToolsProvided)
    && Provided(c, RunRequest(id, req.request)) == Provided(c, req)
  }

  lemma {:induction false} LoopKeepsStart(c: Config, a: Option<Approver>, req: RunRequest, s: State, i: int)
    requires Loop(c, a, req, s, i).Paused?
    ensures Loop(c, a, req, s, i).state.runID == s.runID && Loop(c, a, req, s, i).state.startedAt == s.startedAt
    decreases Limit(c) - i
  {
    PassKeepsStart(c, a, req, s);
    var r := Pass(c, a, req, s);
    if r.Next? {
      LoopKeepsStart(c, a, req, r.state, i + 1);
    }
  }

  lemma DecideKeepsStart(c: Config, rq: Request, s: State)
    ensures Decide(c, rq, s).state.runID == s.runID && Decide(c, rq, s).state.startedAt == s.startedAt
  {
  }

  lemma ConcludeKeepsStart(c: Config, a: Option<Approver>, rq: Request, s: State)
    ensures Conclude(c, a, rq, s).state.runID == s.runID && Conclude(c, a, rq, s).state.startedAt == s.startedAt
  {
  }

  lemma PassKeepsStart(c: Config, a: Option<Approver>, req: RunRequest, s: State)
    ensures Pass(c, a, req, s).state.runID == s.runID && Pass(c, a, req, s).state.startedAt == s.startedAt
  {
    PassParts(c, a, req, s);
    PrepareKeepsTurn(c, req, s);
    var p := Prepare(c, req, s);
    if p.Next? {
      DecideKeepsStart(c, req.request, p.state);
      if Decide(c, req.request, p.state).Next? {
        ConcludeKeepsStart(c, a, req.request, Decide(c, req.request, p.state).state);
      }
    }
  }

  /** The paused record of a run, as ready to be resumed as its host is to resume it. */
  lemma RunPauses(c: Config, a: Option<Approver>, req: RunRequest, generated: RunID, now: int)
    requires Hosted(c, req, RunIDOf(req, generated)) && Run(c, a, req, generated, now).Paused?
    ensures var p := Run(c, a, req, generated, now).state;
            && Awaiting(c, req, p) && Registered(c, RunRequest(p.runID, req.request), p)
            && p.iteration + 1 <= p.summary.llmCalls <= Limit(c)
            && Run(c, AllowAt(a, p.summary.llmCalls), req, generated, now)
               == AfterBatch(c, AllowAt(a, p.summary.llmCalls), req, p, p.summary.llmCalls)
  {
    var s := NewState(RunIDOf(req, generated), req, now);
    assert Unstarted(c, req, s);
    PausedAwaits(c, a, req, s, 0);
    LoopKeepsStart(c, a, req, s, 0);
    AllowedLoop(c, a, AllowAt(a, Loop(c, a, req, s, 0).state.summary.llmCalls), req, s, 0);
  }

  /**
   A run that pauses, is checkpointed, restored and resumed with every call allowed ends as the run
   whose approver allowed that batch at once, if and only if no model answer before the pause was
   empty or the run that never paused is not stopped by the iteration limit.
   */
  lemma ResumeMatchesAllowed(c: Config, a: Option<Approver>, req: RunRequest, generated: RunID, now: int,
                             rs: seq<Resolution>)
    requires Hosted(c, req, RunIDOf(req, generated)) && Run(c, a, req, generated, now).Paused?
    requires var p := Snapshot(req, Run(c, a, req, generated, now).state);
             ValidCheckpoint(c, p) && Covers(p.pending, rs) && AllAllowed(rs)
    ensures var p := Snapshot(req, Run(c, a, req, generated, now).state);
            var direct := Run(c, AllowAt(a, p.llmCalls), req, generated, now);
            Same(Resume(c, a, p, rs), direct) <==> (p.llmCalls == p.iteration + 1 || !HitsLimit(direct))
  {
    RunPauses(c, a, req, generated, now);
    var p := Run(c, a, req, generated, now).state;
    ResumeAfterBatch(c, a, AllowAt(a, p.summary.llmCalls), req, p, rs, p.summary.llmCalls);
  }
}
