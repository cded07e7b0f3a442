/**
 How runs end. Every run makes at most its limit of passes; it finishes only with an answer that calls no
 tools and passes validation, pauses only at a call the approver left open, and never goes on over budget.
 */
module AgentOutcomes {
  import opened Wrappers
  import opened AgentState
  import opened AgentPass
  import opened AgentPairing
  import opened AgentGates
  import opened AgentMeaning

  // ---- One pass ----

  /** The tokens used so far are within every limit that is set. */
  predicate InBudget(c: Config, u: Usage) {
    c.budget.Some? ==>
      && (c.budget.value.maxInputTokens <= 0 || u.inputTokens <= c.budget.value.maxInputTokens)
      && (c.budget.value.maxOutputTokens <= 0 || u.outputTokens <= c.budget.value.maxOutputTokens)
      && (c.budget.value.maxTotalTokens <= 0 || u.inputTokens + u.outputTokens <= c.budget.value.maxTotalTokens)
  }

  /** Without an answer within the budget a pass aborts: it was not prepared, the model failed, or it cost too much. */
  lemma UnansweredAborts(c: Config, a: Option<Approver>, req: RunRequest, s: State)
    requires AnsweredWith(c, req, s).None?
    ensures var p := Prepare(c, req, s);
            && Pass(c, a, req, s).Abort?
            && (!p.Next? ==> Pass(c, a, req, s) == p)
            && (p.Next? ==>
                  var t := Think(c, p.state);
                  Pass(c, a, req, s) == if t.Next? then Abort(BudgetExceeded, t.state) else t)
            && (p.Next? && Think(c, p.state).Next? ==> !InBudget(c, Think(c, p.state).state.usage))
  {
    PassParts(c, a, req, s);
    PrepareKeepsTurn(c, req, s);
  }

  /** The record with which a pass continues its run has an answer within the budget. */
  lemma AnsweredFacts(c: Config, req: RunRequest, s: State)
    requires AnsweredWith(c, req, s).Some? && s.toolResults == []
    ensures var d := AnsweredWith(c, req, s).value;
            && InBudget(c, d.usage) && d.toolResults == [] && d.scratch.lastResponse.Some?
            && d.final == s.final && d.iteration == s.iteration
            && (d.scratch.lastResponse.value.toolCalls == [] ==> d.pending == [])
            && d.summary.llmCalls == s.summary.llmCalls + 1
  {
    PrepareKeepsTurn(c, req, s);
    AnswerMeans(c, Prepare(c, req, s).state);
  }

  /** The answer ends the run: text, without tool calls. */
  predicate IsFinal(resp: ChatResponse) {
    resp.content != "" && resp.toolCalls == []
  }

  /** What a final answer leads to: the result, with the run's totals, or a refusal by the output's validation. */
  function Concluded(c: Config, d: State, resp: ChatResponse): Step {
    match c.validOutput(d.runID, resp.content, CloneMetadata(d.metadata))
    case Err(e) => Abort(OutputInvalid(e), d)
    case Ok(structured) =>
      Break(d.(final := Some(Final(resp.content, structured, d.usage, d.summary.llmCalls, d.summary.toolCalls,
                                   d.summary.usedTools))))
  }

  /** A pass ends the run by its answer if and only if the answer is text without tool calls. */
  lemma FinalAnswerEnds(c: Config, a: Option<Approver>, req: RunRequest, s: State)
    requires AnsweredWith(c, req, s).Some? && s.toolResults == []
    ensures var d := AnsweredWith(c, req, s).value;
            var resp := d.scratch.lastResponse.value;
            && (IsFinal(resp) ==> Pass(c, a, req, s) == Concluded(c, d, resp))
            && (Pass(c, a, req, s).Break? ==> IsFinal(resp))
  {
    AnsweredFacts(c, req, s);
    PassExecutesOnlyCleared(c, a, req, s);
    var d := AnsweredWith(c, req, s).value;
    var resp := d.scratch.lastResponse.value;
    if IsFinal(resp) {
      assert Cleared(c, a, req.request, d);
      assert ActAndObserve(c, req.request, d) == Next(d);
    } else if Cleared(c, a, req.request, d) {
      CarriesOn(c, req.request, d);
    }
  }

  lemma CarriesOn(c: Config, rq: Request, d: State)
    requires d.toolResults == [] && d.scratch.lastResponse.Some? && !IsFinal(d.scratch.lastResponse.value)
    ensures !Carries(c, rq, d).Break?
  {
    if d.pending != [] {
      BatchMeans(c, rq, d);
    }
  }

  /** A pass never changes the tokens its answer left, so it goes on, pauses or finishes only within the budget. */
  lemma PassInBudget(c: Config, a: Option<Approver>, req: RunRequest, s: State)
    requires s.toolResults == []
    ensures var r := Pass(c, a, req, s); !r.Abort? ==> InBudget(c, r.state.usage)
  {
    if AnsweredWith(c, req, s).None? {
      UnansweredAborts(c, a, req, s);
    } else {
      AnsweredFacts(c, req, s);
      PassExecutesOnlyCleared(c, a, req, s);
      CarriesUsage(c, req.request, AnsweredWith(c, req, s).value);
    }
  }

  lemma CarriesUsage(c: Config, rq: Request, d: State)
    requires d.toolResults == []
    ensures Carries(c, rq, d).state.usage == d.usage
  {
    if d.pending != [] {
      BatchMeans(c, rq, d);
    }
  }

  // ---- Whole runs ----

  /** The loop ends as its pass from `last` says; a last pass that goes on used up the limit. */
  ghost predicate EndsFrom(pass: Stage, save: State -> Outcome, last: State, o: Outcome) {
    match pass(last)
    case Break(t) => o == save(t)
    case Interrupt(t) => o == Paused(t)
    case Abort(e, t) => o == Failed(e, t)
    case Next(t) => o == Failed(MaxIterations, t)
  }

  lemma {:induction false} LoopEnds(pass: Stage, save: State -> Outcome, limit: nat, s: State, i: int,
                                    inv: State -> bool)
    returns (last: State, passes: nat)
    requires i < limit && inv(s) && forall t :: inv(t) && pass(t).Next? ==> inv(pass(t).state)
    ensures inv(last) && EndsFrom(pass, save, last, LoopOf(pass, save, limit, s, i))
    ensures 1 <= passes <= limit - i && (pass(last).Next? ==> passes == limit - i)
    decreases limit - i
  {
    last, passes := s, 1;
    if pass(s).Next? && i + 1 < limit {
      var n;
      last, n := LoopEnds(pass, save, limit, pass(s).state, i + 1, inv);
      passes := n + 1;
    }
  }

  /** The limit on passes: the configured one, or eight. */
  function MaxPasses(c: Config): nat {
    if c.maxIterations > 0 then c.maxIterations else 8
  }

  /** A finished run: its last answer, validated, is the result, with the run's totals; its plain messages are saved. */
  ghost predicate FinishedWell(c: Config, rq: Request, t: State, saved: Option<seq<MemoryMessage>>) {
    && t.scratch.lastResponse.Some? && t.final.Some?
    && var resp, final := t.scratch.lastResponse.value, t.final.value;
    && IsFinal(resp) && final.content == resp.content && final.usage == t.usage && InBudget(c, t.usage)
    && c.validOutput(t.runID, resp.content, CloneMetadata(t.metadata)) == Ok(final.structured)
    && final.llmCalls == t.summary.llmCalls && final.toolCalls == t.summary.toolCalls
    && final.usedTools == t.summary.usedTools
    && var plain := Map((m: Message) => MemoryMessage(m.role, m.content), Filter(Plain, t.messages));
    && if c.memory.None? || rq.sessionID == "" then saved == None
       else saved == Some(plain) && c.memory.value.save(rq.sessionID, plain) == None
  }

  /** A paused run waits for a call that the approver left open, all calls before it being granted. */
  ghost predicate PausedWell(c: Config, a: Option<Approver>, rq: Request, t: State) {
    && a.Some? && InBudget(c, t.usage) && (forall j :: 0 <= j < |t.pending| ==> Permitted(c, rq, t, t.pending[j]))
    && exists k :: 0 <= k < |t.pending| && DecisionOn(a.value, rq, t, t.pending[k]).pending
                   && forall j :: 0 <= j < k ==> Grants(a, rq, t, t.pending[j])
  }

  lemma SavesPlain(c: Config, rq: Request, t: State)
    requires t.final.Some?
    ensures var plain := Map((m: Message) => MemoryMessage(m.role, m.content), Filter(Plain, t.messages));
            SaveMemory(c, rq, t) ==
            if c.memory.None? || rq.sessionID == "" then Finished(t, None)
            else match c.memory.value.save(rq.sessionID, plain)
              case Some(e) => Failed(HostError(e), t)
              case None => Finished(t, Some(plain))
  {
    SavedIs(t.messages);
  }

  lemma PassBreaks(c: Config, a: Option<Approver>, req: RunRequest, s: State)
    requires s.toolResults == [] && Pass(c, a, req, s).Break?
    ensures var t := Pass(c, a, req, s).state;
            t.final.Some? && (SaveMemory(c, req.request, t).Finished? ==>
                                FinishedWell(c, req.request, t, SaveMemory(c, req.request, t).saved))
  {
    if AnsweredWith(c, req, s).None? {
      UnansweredAborts(c, a, req, s);
    }
    AnsweredFacts(c, req, s);
    FinalAnswerEnds(c, a, req, s);
    SavesPlain(c, req.request, Pass(c, a, req, s).state);
  }

  lemma PassPauses(c: Config, a: Option<Approver>, req: RunRequest, s: State)
    requires s.toolResults == [] && Pass(c, a, req, s).Interrupt?
    ensures PausedWell(c, a, req.request, Pass(c, a, req, s).state)
  {
    if AnsweredWith(c, req, s).None? {
      UnansweredAborts(c, a, req, s);
    }
    AnsweredFacts(c, req, s);
    PassExecutesOnlyCleared(c, a, req, s);
    var d := AnsweredWith(c, req, s).value;
    if Cleared(c, a, req.request, d) {
      BatchNeverPauses(c, req.request, d);
      FinalizeFacts(c, ActAndObserve(c, req.request, d).state);
    } else {
      var k: nat :| if FirstFailing(d.pending, PermitTest(c, req.request, d), k) then Pass(c, a, req, s).Abort?
                    else && (forall j :: 0 <= j < |d.pending| ==> Permitted(c, req.request, d, d.pending[j]))
                         && FirstFailing(d.pending, GrantTest(a, req.request, d), k) && a.Some?
                         && DecisionOn(a.value, req.request, d, d.pending[k]).pending;
      assert forall j :: 0 <= j < k ==> GrantTest(a, req.request, d)(d.pending[j]);
    }
  }

  /**
   Every run, from the start or from a restored record, below its limit: it makes at most the limit's passes, it
   finishes or pauses well, and if the limit ends it, it made all of them.
   */
  lemma RunEndsWell(c: Config, a: Option<Approver>, req: RunRequest, s: State, i: int)
    returns (last: State, passes: nat)
    requires s.toolResults == [] && i < MaxPasses(c)
    ensures 1 <= passes <= MaxPasses(c) - i && last.toolResults == []
    ensures EndsFrom(PassStage(c, a, req), Saver(c, req.request), last, Loop(c, a, req, s, i))
    ensures Pass(c, a, req, last).Next? ==> passes == MaxPasses(c) - i
    ensures var o := Loop(c, a, req, s, i);
            && (o.Finished? ==> FinishedWell(c, req.request, o.state, o.saved))
            && (o.Paused? ==> PausedWell(c, a, req.request, o.state))
  {
    var pass, inv := PassStage(c, a, req), (t: State) => t.toolResults == [];
    forall t | inv(t) && pass(t).Next? ensures inv(pass(t).state) {
      PassCounts(c, a, req, t);
    }
    last, passes := LoopEnds(pass, Saver(c, req.request), Limit(c), s, i, inv);
    if pass(last).Break? {
      PassBreaks(c, a, req, last);
      SavesPlain(c, req.request, pass(last).state);
    } else if pass(last).Interrupt? {
      PassPauses(c, a, req, last);
    }
  }
}
