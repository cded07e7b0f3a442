/**
 Pausing for approval changes nothing: a run that is checkpointed, restored and resumed with its
 batch approved ends as the run whose approver allowed that batch at once.
 */
module AgentResume {
  import opened Wrappers
  import opened ToolExecutor
  import opened AgentState
  import opened AgentPass

  // ---- What the checkpoint does not keep ----

  function Strip(s: State): State {
    s.(scratch := Scratch(None, None, None))
  }

  function StripStep(r: Step): Step {
    match r
    case Next(s) => Next(Strip(s))
    case Break(s) => Break(Strip(s))
    case Interrupt(s) => Interrupt(Strip(s))
    case Abort(e, s) => Abort(e, Strip(s))
  }

  function StripOutcome(o: Outcome): Outcome {
    match o
    case Finished(s, saved) => Finished(Strip(s), saved)
    case Paused(s) => Paused(Strip(s))
    case Failed(e, s) => Failed(e, Strip(s))
    case Rejected(e) => Rejected(e)
  }

  /** The same end, messages, usage, counts, metadata, final answer and saved memory. */
  ghost predicate Same(x: Outcome, y: Outcome) {
    StripOutcome(x) == StripOutcome(y)
  }

  // ---- The state of a run between passes ----

  ghost predicate Tidy(s: State) {
    s.toolResults == [] && s.final == None && s.summary.lookup == NameSet(s.summary.usedTools)
  }

  predicate Compiled(c: Config, s: State) {
    s.scratch.compiled.Some? && c.compile(c.blocks + s.promptBlocks) == Ok(s.scratch.compiled.value)
  }

  ghost predicate Unstarted(c: Config, req: RunRequest, s: State) {
    s.scratch.compiled.None? && s.metadata.Made? && ToolsAt(c, req, 0, s) && Tidy(s)
  }

  ghost predicate Ready(c: Config, req: RunRequest, s: State) {
    Loaded(c, req.request, s) && Registered(c, req, s) && Compiled(c, s) && Tidy(s)
  }

  lemma SameMarksLoaded(c: Config, rq: Request, s: State, t: State)
    requires Loaded(c, rq, s) && t.metadata == s.metadata
    ensures Loaded(c, rq, t)
  {
    forall flag ensures Skips(c, rq, t, flag) {
      assert Skips(c, rq, s, flag);
    }
  }

  lemma PromptReady(c: Config, req: RunRequest, s: State)
    requires Loaded(c, req.request, s) && Registered(c, req, s) && Tidy(s)
    requires s.scratch.compiled.None? || Compiled(c, s)
    ensures var r := CompilePrompt(c, s);
            r.Next? ==> Ready(c, req, r.state) && r.state == s.(scratch := r.state.scratch)
  {
    var r := CompilePrompt(c, s);
    if r.Next? {
      SameMarksLoaded(c, req.request, s, r.state);
    }
  }

  lemma ProjectReady(c: Config, req: RunRequest, s: State)
    requires Ready(c, req, s)
    ensures var r := Project(c, s); r.Next? ==> Ready(c, req, r.state)
  {
    var r := Project(c, s);
    if r.Next? {
      SameMarksLoaded(c, req.request, s, r.state);
    }
  }

  lemma PrepareReady(c: Config, req: RunRequest, s: State)
    requires Unstarted(c, req, s) || Ready(c, req, s)
    ensures var r := Prepare(c, req, s); r.Next? ==> Ready(c, req, r.state)
  {
    LoadFacts(c, req, s);
    var l := Load(c, req, s);
    if l.Next? {
      PromptReady(c, req, l.state);
      var p := CompilePrompt(c, l.state);
      if p.Next? {
        ProjectReady(c, req, p.state);
      }
    }
  }

  lemma DecideReady(c: Config, req: RunRequest, s: State)
    requires Ready(c, req, s)
    ensures var r := Decide(c, req.request, s); r.Next? ==> Ready(c, req, r.state)
  {
    DecideFacts(c, req.request, s);
    SameMarksLoaded(c, req.request, s, Decide(c, req.request, s).state);
  }

  lemma ActLoaded(c: Config, rq: Request, s: State)
    requires KeepsFlags(c.behaviour) && Loaded(c, rq, s)
    ensures var r := ActAndObserve(c, rq, s); r.Next? ==> Loaded(c, rq, r.state)
  {
    var env := Env(rq.userID, rq.sessionID, s.metadata);
    var x := Execute(c.behaviour, Registry(c, s), s.pending, env);
    var r := ActAndObserve(c, rq, s);
    ExecuteKeepsMade(c.behaviour, Registry(c, s), s.pending, env);
    forall flag ensures r.Next? ==> Skips(c, rq, r.state, flag) {
      assert Skips(c, rq, s, flag);
      if Has(s.metadata, flag) {
        ExecuteKeepsFlag(c.behaviour, Registry(c, s), s.pending, env, flag);
      }
    }
  }

  lemma ActReady(c: Config, req: RunRequest, s: State)
    requires KeepsFlags(c.behaviour) && Ready(c, req, s)
    ensures var r := ActAndObserve(c, req.request, s); r.Next? ==> Ready(c, req, r.state)
  {
    ActLoaded(c, req.request, s);
    ActFacts(c, req.request, s);
  }

  /** A batch that has passed the policy and awaits approval. */
  ghost predicate Awaiting(c: Config, req: RunRequest, s: State) {
    && Ready(c, req, s) && s.pending != []
    && s.scratch.lastResponse.Some? && s.scratch.lastResponse.value.toolCalls != []
    && PolicyDenial(c, Registry(c, s), AskerOf(req.request, s), s.pending).None?
  }

  lemma DecideAwaits(c: Config, req: RunRequest, s: State)
    requires Ready(c, req, s) && Decide(c, req.request, s).Next?
    ensures var t := Decide(c, req.request, s).state; t.pending != [] ==> Awaiting(c, req, t)
  {
    DecideReady(c, req, s);
    DecideFacts(c, req.request, s);
  }

  lemma InterruptHasCalls(a: Option<Approver>, rq: Request, s: State)
    requires Approval(a, rq, s).Interrupt?
    ensures s.pending != [] && a.Some?
  {
  }

  /** A run stays ready from pass to pass, and pauses only with a batch awaiting approval. */
  lemma PassReady(c: Config, a: Option<Approver>, req: RunRequest, s: State)
    requires KeepsFlags(c.behaviour) && (Unstarted(c, req, s) || Ready(c, req, s))
    ensures var r := Pass(c, a, req, s);
            && (r.Next? ==> Ready(c, req, r.state))
            && (r.Interrupt? ==> Awaiting(c, req, r.state) && r.state == AfterDecide(c, req, s).state)
            && (r.Next? || r.Interrupt? ==>
                  && AfterDecide(c, req, s).Next?
                  && Conclude(c, a, req.request, AfterDecide(c, req, s).state) == r)
  {
    PassParts(c, a, req, s);
    PrepareKeepsTurn(c, req, s);
    PrepareReady(c, req, s);
    var p := Prepare(c, req, s);
    if p.Next? {
      DecideFacts(c, req.request, p.state);
      var d := Decide(c, req.request, p.state);
      if d.Next? {
        DecideReady(c, req, p.state);
        DecideAwaits(c, req, p.state);
        ConcludeReady(c, a, req, d.state);
      }
    }
  }

  /** The record after the model has answered and the policy has agreed. */
  function AfterDecide(c: Config, req: RunRequest, s: State): Step {
    var s :- Prepare(c, req, s);
    Decide(c, req.request, s)
  }

  lemma ConcludeReady(c: Config, a: Option<Approver>, req: RunRequest, s: State)
    requires KeepsFlags(c.behaviour) && Ready(c, req, s)
    ensures var r := Conclude(c, a, req.request, s);
            (r.Next? ==> Ready(c, req, r.state)) && (r.Interrupt? ==> r.state == s && s.pending != [])
  {
    ConcludeEnds(c, a, req.request, s);
    ActReady(c, req, s);
    if Conclude(c, a, req.request, s).Interrupt? {
      InterruptHasCalls(a, req.request, s);
    }
  }

  // ---- The approver matters only for the batch it is asked about ----

  ghost predicate Agree(a: Option<Approver>, b: Option<Approver>, batch: nat) {
    a.Some? == b.Some? && (a.Some? ==> forall who, call :: a.value(batch, who, call) == b.value(batch, who, call))
  }

  /** The approver that allows every call of one batch and otherwise decides as before. */
  function AllowAt(a: Option<Approver>, batch: nat): Option<Approver> {
    if a.None? then None
    else Some((k: nat, who: Asker, call: Call) => if k == batch then Decision(true, false) else a.value(k, who, call))
  }

  lemma {:induction false} AgreeVerdict(f: Approver, g: Approver, batch: nat, who: Asker, calls: seq<Call>)
    requires forall who, call :: f(batch, who, call) == g(batch, who, call)
    ensures Approvals(f, batch, who, calls) == Approvals(g, batch, who, calls)
  {
    if calls != [] {
      AgreeVerdict(f, g, batch, who, calls[1..]);
    }
  }

  lemma {:induction false} AllowedVerdict(f: Approver, batch: nat, who: Asker, calls: seq<Call>)
    requires forall who, call :: f(batch, who, call) == Decision(true, false)
    ensures Approvals(f, batch, who, calls) == Granted
  {
    if calls != [] {
      AllowedVerdict(f, batch, who, calls[1..]);
    }
  }

  lemma ConcludeAgree(c: Config, a: Option<Approver>, b: Option<Approver>, rq: Request, s: State)
    requires Agree(a, b, s.summary.llmCalls)
    ensures Conclude(c, a, rq, s) == Conclude(c, b, rq, s)
  {
    if a.Some? {
      AgreeVerdict(a.value, b.value, s.summary.llmCalls, AskerOf(rq, s), s.pending);
    }
  }

  lemma RestAgree(c: Config, a: Option<Approver>, b: Option<Approver>, rq: Request, r: Step)
    requires r.Next? ==> Agree(a, b, r.state.summary.llmCalls + 1)
    ensures Rest(c, a, rq, r) == Rest(c, b, rq, r)
  {
    if r.Next? {
      DecideFacts(c, rq, r.state);
      var d := Decide(c, rq, r.state);
      if d.Next? {
        ConcludeAgree(c, a, b, rq, d.state);
      }
    }
  }

  lemma PassAgree(c: Config, a: Option<Approver>, b: Option<Approver>, req: RunRequest, s: State)
    requires Agree(a, b, s.summary.llmCalls + 1)
    ensures Pass(c, a, req, s) == Pass(c, b, req, s)
  {
    PrepareKeepsTurn(c, req, s);
    var p := Prepare(c, req, s);
    assert p.state.summary.llmCalls == s.summary.llmCalls;
    RestAgree(c, a, b, req.request, p);
    PassParts(c, a, req, s);
    PassParts(c, b, req, s);
  }

  /** Passes that agree wherever the loop can get give the same loop. */
  lemma {:induction false} LoopOfSame(f: Stage, g: Stage, save: State -> Outcome, limit: nat, inv: State -> bool,
                                      s: State, i: int)
    requires inv(s) && forall t :: inv(t) ==> f(t) == g(t) && (f(t).Next? ==> inv(f(t).state))
    ensures LoopOf(f, save, limit, s, i) == LoopOf(g, save, limit, s, i)
    decreases limit - i
  {
    if i < limit && f(s).Next? {
      LoopOfSame(f, g, save, limit, inv, f(s).state, i + 1);
    }
  }

  /** Approvers that agree on the batches still to come make no difference. */
  lemma LoopAgree(c: Config, a: Option<Approver>, b: Option<Approver>, req: RunRequest, s: State, i: int)
    requires s.toolResults == [] && forall k: nat :: k > s.summary.llmCalls ==> Agree(a, b, k)
    ensures Loop(c, a, req, s, i) == Loop(c, b, req, s, i)
  {
    var f, g := PassStage(c, a, req), PassStage(c, b, req);
    var n := s.summary.llmCalls;
    var inv := (t: State) => t.toolResults == [] && t.summary.llmCalls >= n;
    forall t: State | inv(t) ensures f(t) == g(t) && (f(t).Next? ==> inv(f(t).state)) {
      PassAgree(c, a, b, req, t);
      PassCounts(c, a, req, t);
    }
    LoopOfSame(f, g, Saver(c, req.request), Limit(c), inv, s, i);
  }

  // ---- The restored run ----

  /** Once everything is loaded, the run ID in the request is not read again. */
  lemma PrepareReq(c: Config, req: RunRequest, req': RunRequest, s: State)
    requires Loaded(c, req.request, s) && req'.request == req.request
    ensures Prepare(c, req, s) == Prepare(c, req', s)
  {
    LoadFacts(c, req, s);
    LoadFacts(c, req', s);
  }

  lemma PassReq(c: Config, a: Option<Approver>, req: RunRequest, req': RunRequest, s: State)
    requires Loaded(c, req.request, s) && req'.request == req.request
    ensures Pass(c, a, req, s) == Pass(c, a, req', s)
  {
    PassParts(c, a, req, s);
    PassParts(c, a, req', s);
    PrepareReq(c, req, req', s);
  }

  lemma LoopReq(c: Config, a: Option<Approver>, req: RunRequest, req': RunRequest, s: State, i: int)
    requires KeepsFlags(c.behaviour) && Ready(c, req, s) && req'.request == req.request
    ensures Loop(c, a, req, s, i) == Loop(c, a, req', s, i)
  {
    var f, g := PassStage(c, a, req), PassStage(c, a, req');
    var inv := (t: State) => Ready(c, req, t);
    forall t: State | inv(t) ensures f(t) == g(t) && (f(t).Next? ==> inv(f(t).state)) {
      PassReq(c, a, req, req', t);
      PassReady(c, a, req, t);
    }
    LoopOfSame(f, g, Saver(c, req.request), Limit(c), inv, s, i);
  }

  function Forget(s: State): State {
    s.(scratch := s.scratch.(lastResponse := None))
  }

  lemma PrepareStrip(c: Config, req: RunRequest, s: State)
    requires Ready(c, req, s)
    ensures var r, r' := Prepare(c, req, s), Prepare(c, req, Strip(s));
            && StripStep(r) == StripStep(r')
            && (r.Next? ==> r'.Next? && r'.state == Forget(r.state))
  {
    LoadFacts(c, req, s);
    LoadFacts(c, req, Strip(s));
    SameMarksLoaded(c, req.request, s, Strip(s));
  }

  lemma ThinkForget(c: Config, s: State)
    ensures var r, r' := Think(c, s), Think(c, Forget(s));
            if r.Next? then r' == r else r.Abort? && StripStep(r) == StripStep(r')
  {
    assert ChatRequestOf(c, Forget(s)) == ChatRequestOf(c, s);
  }

  lemma DecideForget(c: Config, rq: Request, s: State)
    ensures var r, r' := Decide(c, rq, s), Decide(c, rq, Forget(s));
            r == r' || (r.Abort? && StripStep(r) == StripStep(r'))
  {
    ThinkForget(c, s);
  }

  /**
   A pass from a restored record is the pass from the record itself, up to what was not kept of a pass that fails
   early.
   */
  lemma PassStrip(c: Config, a: Option<Approver>, req: RunRequest, s: State)
    requires Ready(c, req, s)
    ensures var r, r' := Pass(c, a, req, s), Pass(c, a, req, Strip(s));
            r == r' || (r.Abort? && StripStep(r) == StripStep(r'))
  {
    PassParts(c, a, req, s);
    PassParts(c, a, req, Strip(s));
    PrepareStrip(c, req, s);
    PrepareKeepsTurn(c, req, s);
    var p := Prepare(c, req, s);
    if p.Next? {
      DecideForget(c, req.request, p.state);
    }
  }

  lemma LoopStrip(c: Config, a: Option<Approver>, req: RunRequest, s: State, i: int)
    requires Ready(c, req, s)
    ensures Same(Loop(c, a, req, s, i), Loop(c, a, req, Strip(s), i))
  {
    if i < Limit(c) {
      PassStrip(c, a, req, s);
    }
  }

  lemma LoopRestored(c: Config, a: Option<Approver>, req: RunRequest, req': RunRequest, s: State, i: int)
    requires KeepsFlags(c.behaviour) && Ready(c, req, s) && req'.request == req.request && Registered(c, req', s)
    ensures Same(Loop(c, a, req, s, i), Loop(c, a, req', Strip(s), i))
  {
    LoopReq(c, a, req, req', s, i);
    LoopStrip(c, a, req', s, i);
  }

  // ---- The paused batch ----

  lemma ActStrip(c: Config, rq: Request, s: State)
    requires s.pending != [] && s.toolResults == []
    ensures ActAndObserve(c, rq, Strip(s)) == StripStep(ActAndObserve(c, rq, s))
  {
    OneResultPerCall(c.behaviour, Registry(c, s), s.pending, Env(rq.userID, rq.sessionID, s.metadata));
    var x, x' := Act(c, rq, s), Act(c, rq, Strip(s));
    assert x' == StripStep(x);
    if x.Next? {
      ObserveStrip(x.state);
    }
  }

  lemma ObserveStrip(s: State)
    requires s.toolResults != []
    ensures Observe(Strip(s)) == Strip(Observe(s))
  {
  }

  predicate AllAllowed(rs: seq<Resolution>) {
    forall j :: 0 <= j < |rs| ==> rs[j].allowed
  }

  lemma {:induction false} NoDenial(calls: seq<Call>, rs: seq<Resolution>, k: nat)
    requires k <= |calls| && AllAllowed(rs)
    ensures Denial(calls, rs, k) == None
    decreases |calls| - k
  {
    if k < |calls| {
      NoDenial(calls, rs, k + 1);
    }
  }

  /** Restoring the checkpoint of a waiting record gives back all of it but the scratch part. */
  lemma RestoredIsStripped(c: Config, req: RunRequest, s: State)
    requires Ready(c, req, s) && req.request.input != ""
    ensures Restored(Snapshot(req, s)).(scoped := s.scoped) == Strip(s)
  {
    assert Skips(c, req.request, s, InputAdded);
    assert Reserved(InputAdded) in s.metadata.entries;
  }

  lemma ApprovedPass(c: Config, rq: Request, rs: seq<Resolution>, s: State)
    requires PolicyDenial(c, Registry(c, s), AskerOf(rq, s), s.pending).None? && Covers(s.pending, rs) && AllAllowed(rs)
    ensures ResumePass(c, rq, rs, s) == ActAndObserve(c, rq, s)
  {
    NoDenial(s.pending, rs, 0);
  }

  /** Resuming with every call allowed executes the batch just as allowing it at once would have. */
  lemma ResumedBatch(c: Config, req: RunRequest, s: State, rs: seq<Resolution>)
    requires Awaiting(c, req, s) && req.request.input != "" && Registered(c, RunRequest(s.runID, req.request), s)
    requires ValidCheckpoint(c, Snapshot(req, s)) && Covers(s.pending, rs) && AllAllowed(rs)
    ensures ResumeBatch(c, Snapshot(req, s), rs) == Some(StripStep(ActAndObserve(c, req.request, s)))
  {
    RestoredIsStripped(c, req, s);
    ApprovedPass(c, req.request, rs, Strip(s));
    ActStrip(c, req.request, s);
  }

  /** The pass that paused, had its approver allowed the batch. */
  lemma AllowedPass(c: Config, a: Option<Approver>, b: Option<Approver>, req: RunRequest, s: State)
    requires KeepsFlags(c.behaviour) && (Unstarted(c, req, s) || Ready(c, req, s)) && Pass(c, a, req, s).Interrupt?
    requires b == AllowAt(a, Pass(c, a, req, s).state.summary.llmCalls)
    ensures Pass(c, b, req, s) == ActAndObserve(c, req.request, Pass(c, a, req, s).state)
  {
    PassReady(c, a, req, s);
    PassParts(c, b, req, s);
    var p := Pass(c, a, req, s).state;
    ConcludeEnds(c, a, req.request, p);
    InterruptHasCalls(a, req.request, p);
    AllowedConclude(c, b, req, p);
  }

  lemma AllowedConclude(c: Config, b: Option<Approver>, req: RunRequest, p: State)
    requires Awaiting(c, req, p) && b.Some?
    requires forall who, call :: b.value(p.summary.llmCalls, who, call) == Decision(true, false)
    ensures Conclude(c, b, req.request, p) == ActAndObserve(c, req.request, p)
  {
    AllowedVerdict(b.value, p.summary.llmCalls, AskerOf(req.request, p), p.pending);
    ActFacts(c, req.request, p);
    var r := ActAndObserve(c, req.request, p);
    if r.Next? {
      assert Finalize(c, r.state) == r;
    }
  }
}
