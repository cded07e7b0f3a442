/**
 The shape of the history at every model call: each assistant message that calls tools is
 followed at once by one reply per call, whatever was rejected, executed, paused or resumed;
 and the bounds on model calls and pauses.
 */
module AgentPairing {
  import opened Wrappers
  import opened ToolExecutor
  import opened AgentState
  import opened AgentPass

  function CallIDs(calls: seq<Call>): multiset<string> {
    if calls == [] then multiset{} else multiset{calls[0].id} + CallIDs(calls[1..])
  }

  function ReplyIDs(replies: seq<Message>): multiset<string> {
    if replies == [] then multiset{} else multiset{replies[0].toolCallID} + ReplyIDs(replies[1..])
  }

  predicate AllReplies(ms: seq<Message>) {
    forall i :: 0 <= i < |ms| ==> ms[i].role == Reply
  }

  /** Exactly one reply per call, as a multiset of IDs. */
  predicate Answers(calls: seq<Call>, replies: seq<Message>) {
    |replies| == |calls| && AllReplies(replies) && ReplyIDs(replies) == CallIDs(calls)
  }

  /** Every call is answered at once, and every reply answers a call. */
  predicate Paired(ms: seq<Message>)
    decreases |ms|
  {
    ms == []
    || (var n := 1 + |ms[0].toolCalls|;
        ms[0].role != Reply && n <= |ms| && Answers(ms[0].toolCalls, ms[1..n]) && Paired(ms[n..]))
  }

  /** One reply to each call, in call order. */
  predicate RepliesTo(replies: seq<Message>, calls: seq<Call>) {
    && |replies| == |calls|
    && forall i :: 0 <= i < |calls| ==> replies[i].role == Reply && replies[i].toolCallID == calls[i].id
  }

  /** Replying to the pending calls, and nothing else, completes the history. */
  ghost predicate Open(ms: seq<Message>, pending: seq<Call>) {
    forall replies :: RepliesTo(replies, pending) ==> Paired(ms + replies)
  }

  // ---- Multisets of IDs ----

  lemma {:induction false} ReplyIDsConcat(a: seq<Message>, b: seq<Message>)
    ensures ReplyIDs(a + b) == ReplyIDs(a) + ReplyIDs(b)
  {
    if a == [] {
      assert a + b == b;
    } else {
      assert (a + b)[0] == a[0] && (a + b)[1..] == a[1..] + b;
      ReplyIDsConcat(a[1..], b);
    }
  }

  lemma {:induction false} RepliesToIDs(replies: seq<Message>, calls: seq<Call>)
    requires RepliesTo(replies, calls)
    ensures AllReplies(replies) && ReplyIDs(replies) == CallIDs(calls)
  {
    if calls != [] {
      RepliesToIDs(replies[1..], calls[1..]);
    }
  }

  // ---- Histories ----

  lemma {:induction false} PairedConcat(a: seq<Message>, b: seq<Message>)
    requires Paired(a) && Paired(b)
    ensures Paired(a + b)
    decreases |a|
  {
    if a == [] {
      assert a + b == b;
    } else {
      var n := 1 + |a[0].toolCalls|;
      PairedConcat(a[n..], b);
      SliceConcat(a, b, n);
    }
  }

  lemma SliceConcat(a: seq<Message>, b: seq<Message>, n: nat)
    requires 1 <= n <= |a|
    ensures (a + b)[0] == a[0] && (a + b)[1..n] == a[1..n] && (a + b)[n..] == a[n..] + b
  {
  }

  lemma PairedPlain(m: Message)
    requires m.role != Reply && m.toolCalls == []
    ensures Paired([m])
  {
    assert [m][1..1] == [] && [m][1..] == [];
  }

  lemma PairedBlock(m: Message, replies: seq<Message>)
    requires m.role != Reply && Answers(m.toolCalls, replies)
    ensures Paired([m] + replies)
  {
    var ms := [m] + replies;
    var n := 1 + |m.toolCalls|;
    assert ms[1..n] == replies && ms[n..] == [];
  }

  lemma {:induction false} LoadedPaired(loaded: seq<MemoryMessage>)
    ensures Paired(MemoryStateMessages(loaded))
  {
    if loaded != [] {
      LoadedPaired(loaded[1..]);
      if loaded[0].role != Reply {
        var m := Message(loaded[0].role, loaded[0].content, "", []);
        PairedPlain(m);
        PairedConcat([m], MemoryStateMessages(loaded[1..]));
      } else {
        assert MemoryStateMessages(loaded) == MemoryStateMessages(loaded[1..]);
      }
    }
  }

  // ---- One pass ----

  lemma MemoryLoadPairs(c: Config, req: RunRequest, s: State)
    requires Paired(s.messages)
    ensures Paired(MemoryLoad(c, req, s).state.messages)
  {
    if Needed(c, req.request, MemoryLoaded) && c.memory.value.load(req.request.sessionID).Ok? {
      var loaded := c.memory.value.load(req.request.sessionID).value;
      LoadedPaired(loaded);
      PairedConcat(MemoryStateMessages(loaded), s.messages);
    }
  }

  lemma AddInputPairs(c: Config, req: RunRequest, s: State)
    requires Paired(s.messages)
    ensures Paired(AddInput(c, req, s).state.messages)
  {
    var m := Message(User, req.request.input, "", []);
    PairedPlain(m);
    PairedConcat(s.messages, [m]);
  }

  lemma LoadStagePairs(c: Config, req: RunRequest, i: nat, s: State)
    requires i < 7 && Paired(s.messages)
    ensures Paired(LoadStages(c, req)[i](s).state.messages)
  {
    if i == 1 {
      MemoryLoadPairs(c, req, s);
    } else if i == 2 {
      AddInputPairs(c, req, s);
    } else {
      OtherStagesKeepMessages(c, req, i, s);
    }
  }

  lemma OtherStagesKeepMessages(c: Config, req: RunRequest, i: nat, s: State)
    requires i < 7 && i != 1 && i != 2
    ensures LoadStages(c, req)[i](s).state.messages == s.messages
  {
  }

  lemma {:induction false} LoadFromPairs(c: Config, req: RunRequest, i: nat, s: State)
    requires i <= 7 && Paired(s.messages)
    ensures Paired(LoadFrom(c, req, i, s).state.messages)
    decreases 7 - i
  {
    if i < 7 {
      LoadFromStep(c, req, i, s);
      LoadStagePairs(c, req, i, s);
      var r := LoadStages(c, req)[i](s);
      if r.Next? {
        LoadFromPairs(c, req, i + 1, r.state);
      }
    }
  }

  /** Loading memory and adding the input keep a paired history paired. */
  lemma PreparePairs(c: Config, req: RunRequest, s: State)
    requires Paired(s.messages)
    ensures Paired(Prepare(c, req, s).state.messages)
  {
    LoadWhole(c, req, s);
    LoadFromPairs(c, req, 0, s);
  }

  function RejectionOf(c: Config, tools: map<string, Tool>, call: Call): Message {
    Message(Reply, c.rejection(tools, call), call.id, [])
  }

  lemma ScreenHead(c: Config, tools: map<string, Tool>, calls: seq<Call>)
    requires calls != []
    ensures var rejected, accepted := Rejections(c, tools, calls[1..]), Accepted(c, tools, calls[1..]);
            if Rejects(c, tools, calls[0]) then
              && Rejections(c, tools, calls) == [RejectionOf(c, tools, calls[0])] + rejected
              && Accepted(c, tools, calls) == accepted
            else
              Rejections(c, tools, calls) == rejected && Accepted(c, tools, calls) == [calls[0]] + accepted
  {
  }

  predicate Splits(rejected: seq<Message>, accepted: seq<Call>, calls: seq<Call>) {
    && |rejected| + |accepted| == |calls| && AllReplies(rejected)
    && ReplyIDs(rejected) + CallIDs(accepted) == CallIDs(calls)
  }

  /** Every call is either rejected with a reply of its ID or accepted. */
  lemma {:induction false} ScreenSplitsCalls(c: Config, tools: map<string, Tool>, calls: seq<Call>)
    ensures Splits(Rejections(c, tools, calls), Accepted(c, tools, calls), calls)
  {
    if calls != [] {
      var rejected, accepted := Rejections(c, tools, calls[1..]), Accepted(c, tools, calls[1..]);
      ScreenSplitsCalls(c, tools, calls[1..]);
      ScreenHead(c, tools, calls);
      SplitsMore(rejected, accepted, calls, RejectionOf(c, tools, calls[0]));
    }
  }

  lemma SplitsMore(rejected: seq<Message>, accepted: seq<Call>, calls: seq<Call>, m: Message)
    requires calls != [] && Splits(rejected, accepted, calls[1..]) && m.role == Reply && m.toolCallID == calls[0].id
    ensures Splits([m] + rejected, accepted, calls) && Splits(rejected, [calls[0]] + accepted, calls)
  {
    FirstReply(m, rejected);
    FirstCall(calls[0], accepted);
  }

  lemma FirstReply(m: Message, rest: seq<Message>)
    requires m.role == Reply && AllReplies(rest)
    ensures AllReplies([m] + rest) && ReplyIDs([m] + rest) == multiset{m.toolCallID} + ReplyIDs(rest)
  {
    assert ([m] + rest)[1..] == rest;
  }

  lemma FirstCall(call: Call, rest: seq<Call>)
    ensures CallIDs([call] + rest) == multiset{call.id} + CallIDs(rest)
  {
    assert ([call] + rest)[1..] == rest;
  }

  lemma BlockPaired(before: seq<Message>, m: Message, rejected: seq<Message>, replies: seq<Message>)
    requires Paired(before) && m.role != Reply && Answers(m.toolCalls, rejected + replies)
    ensures Paired(before + ([m] + rejected) + replies)
  {
    PairedBlock(m, rejected + replies);
    PairedConcat(before, [m] + (rejected + replies));
    assert before + ([m] + rejected) + replies == before + ([m] + (rejected + replies));
  }

  lemma CallingTurnOpens(c: Config, tools: map<string, Tool>, resp: ChatResponse, before: seq<Message>)
    requires Paired(before) && resp.toolCalls != []
    ensures Open(before + Turn(c, tools, resp), Accepted(c, tools, resp.toolCalls))
  {
    var turn, accepted := Turn(c, tools, resp), Accepted(c, tools, resp.toolCalls);
    var rejected := Rejections(c, tools, resp.toolCalls);
    ScreenSplitsCalls(c, tools, resp.toolCalls);
    forall replies | RepliesTo(replies, accepted) ensures Paired(before + turn + replies) {
      RepliesToIDs(replies, accepted);
      ReplyIDsConcat(rejected, replies);
      BlockPaired(before, Message(Assistant, resp.content, "", resp.toolCalls), rejected, replies);
    }
  }

  lemma PlainTurnOpens(c: Config, tools: map<string, Tool>, resp: ChatResponse, before: seq<Message>)
    requires Paired(before) && resp.toolCalls == []
    ensures Open(before + Turn(c, tools, resp), [])
  {
    var turn := Turn(c, tools, resp);
    if resp.content != "" {
      PairedPlain(turn[0]);
      PairedConcat(before, turn);
    } else {
      assert before + turn == before;
    }
    forall replies | RepliesTo(replies, []) ensures Paired(before + turn + replies) {
      assert before + turn + replies == before + turn;
    }
  }

  /** After the model answers, exactly the pending calls lack a reply. */
  lemma ThinkOpens(c: Config, s: State)
    requires Paired(s.messages) && Think(c, s).Next?
    ensures var t := Think(c, s).state; Open(t.messages, t.pending)
  {
    var resp := c.llm(s.summary.llmCalls, ChatRequestOf(c, s)).value;
    if resp.toolCalls != [] {
      CallingTurnOpens(c, Registry(c, s), resp, s.messages);
    } else {
      PlainTurnOpens(c, Registry(c, s), resp, s.messages);
    }
  }

  lemma DecideOpens(c: Config, rq: Request, s: State)
    requires Paired(s.messages) && Decide(c, rq, s).Next?
    ensures var t := Decide(c, rq, s).state; Open(t.messages, t.pending)
  {
    ThinkOpens(c, s);
  }

  /** Executing the batch answers exactly the pending calls. */
  lemma ActAndObserveCloses(c: Config, rq: Request, s: State)
    requires Open(s.messages, s.pending) && s.toolResults == [] && ActAndObserve(c, rq, s).Next?
    ensures Paired(ActAndObserve(c, rq, s).state.messages)
  {
    if s.pending == [] {
      assert RepliesTo([], s.pending);
      assert s.messages + [] == s.messages;
      assert Replies([]) == [];
    } else {
      var acted := Act(c, rq, s).state;
      OneResultPerCall(c.behaviour, Registry(c, s), s.pending, Env(rq.userID, rq.sessionID, s.metadata));
      assert RepliesTo(Replies(acted.toolResults), s.pending);
    }
  }

  /** A pass that goes on leaves the history paired; a pass that pauses leaves it open for its batch. */
  lemma PassPairs(c: Config, a: Option<Approver>, req: RunRequest, s: State)
    requires Paired(s.messages) && s.toolResults == []
    ensures var r := Pass(c, a, req, s);
            && (r.Next? ==> Paired(r.state.messages) && r.state.toolResults == [])
            && (r.Interrupt? ==> Open(r.state.messages, r.state.pending))
  {
    PassParts(c, a, req, s);
    PreparePairs(c, req, s);
    PrepareKeepsTurn(c, req, s);
    var p := Prepare(c, req, s);
    if p.Next? {
      RestPairs(c, a, req.request, p.state);
    }
  }

  lemma RestPairs(c: Config, a: Option<Approver>, rq: Request, s: State)
    requires Paired(s.messages) && s.toolResults == []
    ensures var r := Rest(c, a, rq, Next(s));
            && (r.Next? ==> Paired(r.state.messages) && r.state.toolResults == [])
            && (r.Interrupt? ==> Open(r.state.messages, r.state.pending))
  {
    DecideFacts(c, rq, s);
    var d := Decide(c, rq, s);
    if d.Next? {
      DecideOpens(c, rq, s);
      ConcludePairs(c, a, rq, d.state);
    }
  }

  lemma ConcludePairs(c: Config, a: Option<Approver>, rq: Request, s: State)
    requires Open(s.messages, s.pending) && s.toolResults == []
    ensures var r := Conclude(c, a, rq, s);
            && (r.Next? ==> Paired(r.state.messages) && r.state.toolResults == [])
            && (r.Interrupt? ==> r.state == s)
  {
    ConcludeEnds(c, a, rq, s);
    if Conclude(c, a, rq, s).Next? {
      ActFacts(c, rq, s);
      ActAndObserveCloses(c, rq, s);
    }
  }

  // ---- Whole runs ----

  /** The record with which one pass calls the model, if it gets so far. */
  function AskedWith(c: Config, req: RunRequest, s: State): (asked: seq<State>)
    ensures |asked| <= 1
  {
    var p := Prepare(c, req, s);
    if p.Next? then [p.state] else []
  }

  function CallsOf(pass: Stage, ask: State -> seq<State>, limit: nat, s: State, i: int): seq<State>
    decreases limit - i
  {
    if i >= limit then []
    else if pass(s).Next? then ask(s) + CallsOf(pass, ask, limit, pass(s).state, i + 1)
    else ask(s)
  }

  function Asks(c: Config, req: RunRequest): State -> seq<State> {
    s => AskedWith(c, req, s)
  }

  /** The records with which a run of the loop calls the model. */
  function ModelCalls(c: Config, a: Option<Approver>, req: RunRequest, s: State, i: int): seq<State> {
    CallsOf(PassStage(c, a, req), Asks(c, req), Limit(c), s, i)
  }

  ghost predicate AllPaired(calls: seq<State>) {
    forall k :: 0 <= k < |calls| ==> Paired(calls[k].messages)
  }

  ghost predicate Starts(s: State) {
    Paired(s.messages) && s.toolResults == []
  }

  /** At a record ready for a pass, the pass asks at most once, with a paired history, and is ready again or open. */
  ghost predicate KeepsPairing(pass: Stage, ask: State -> seq<State>, s: State) {
    && |ask(s)| <= 1 && AllPaired(ask(s))
    && (pass(s).Next? ==> Starts(pass(s).state))
    && (pass(s).Interrupt? ==> Open(pass(s).state.messages, pass(s).state.pending))
  }

  lemma PassKeepsPairing(c: Config, a: Option<Approver>, req: RunRequest, s: State)
    requires Starts(s)
    ensures KeepsPairing(PassStage(c, a, req), Asks(c, req), s)
  {
    PreparePairs(c, req, s);
    PassPairs(c, a, req, s);
  }

  lemma {:induction false} LoopOfPairs(pass: Stage, ask: State -> seq<State>, save: State -> Outcome, limit: nat,
                                       s: State, i: int)
    requires Starts(s) && forall t :: Starts(t) ==> KeepsPairing(pass, ask, t)
    requires forall t :: !save(t).Paused?
    ensures AllPaired(CallsOf(pass, ask, limit, s, i))
    ensures |CallsOf(pass, ask, limit, s, i)| <= if i < limit then limit - i else 0
    ensures var r := LoopOf(pass, save, limit, s, i); r.Paused? ==> Open(r.state.messages, r.state.pending)
    decreases limit - i
  {
    if i < limit {
      assert KeepsPairing(pass, ask, s);
      if pass(s).Next? {
        LoopOfPairs(pass, ask, save, limit, pass(s).state, i + 1);
      }
    }
  }

  /**
   In one run of the loop every model call sees a paired history, there are at most Limit - i of them, and a pause is
   open.
   */
  lemma LoopPairs(c: Config, a: Option<Approver>, req: RunRequest, s: State, i: int)
    requires Starts(s)
    ensures AllPaired(ModelCalls(c, a, req, s, i))
    ensures |ModelCalls(c, a, req, s, i)| <= if i < Limit(c) then Limit(c) - i else 0
    ensures var r := Loop(c, a, req, s, i); r.Paused? ==> Open(r.state.messages, r.state.pending)
  {
    forall t | Starts(t) ensures KeepsPairing(PassStage(c, a, req), Asks(c, req), t) {
      PassKeepsPairing(c, a, req, t);
    }
    LoopOfPairs(PassStage(c, a, req), Asks(c, req), Saver(c, req.request), Limit(c), s, i);
  }

  lemma {:induction false} LoopPausesBelowLimit(c: Config, a: Option<Approver>, req: RunRequest, s: State, i: int)
    requires s.toolResults == [] && s.iteration <= i && Loop(c, a, req, s, i).Paused?
    ensures var t := Loop(c, a, req, s, i).state; s.iteration <= t.iteration < Limit(c)
    decreases Limit(c) - i
  {
    PassCounts(c, a, req, s);
    var r := Pass(c, a, req, s);
    if r.Next? {
      LoopPausesBelowLimit(c, a, req, r.state, i + 1);
    }
  }

  /** The records at which resuming a checkpoint calls the model. */
  function ResumeCalls(c: Config, a: Option<Approver>, p: Checkpoint, rs: seq<Resolution>): seq<State> {
    var r := ResumeBatch(c, p, rs);
    if r.Some? && r.value.Next? then
      ModelCalls(c, a, RunRequest(p.runID, p.request), r.value.state, r.value.state.iteration)
    else []
  }

  lemma ResumeBatchCloses(c: Config, p: Checkpoint, rs: seq<Resolution>)
    requires Open(p.messages, p.pending)
    ensures var r := ResumeBatch(c, p, rs);
            r.Some? && r.value.Next? ==>
              && Paired(r.value.state.messages) && r.value.state.toolResults == []
              && r.value.state.iteration == p.iteration + 1
  {
    var req := RunRequest(p.runID, p.request);
    var h := Rehydrate(c, req, Restored(p));
    if ValidCheckpoint(c, p) && h.Next? && ActAndObserve(c, p.request, h.state).Next? {
      ActAndObserveCloses(c, p.request, h.state);
      ActFacts(c, p.request, h.state);
    }
  }

  /** A resumed run answers its batch before it calls the model, and pauses only at a later iteration. */
  lemma ResumePairs(c: Config, a: Option<Approver>, p: Checkpoint, rs: seq<Resolution>)
    requires Open(p.messages, p.pending)
    ensures AllPaired(ResumeCalls(c, a, p, rs))
    ensures |ResumeCalls(c, a, p, rs)| <= if p.iteration + 1 < Limit(c) then Limit(c) - (p.iteration + 1) else 0
    ensures Resume(c, a, p, rs).Paused? ==>
              var t := Resume(c, a, p, rs).state; Open(t.messages, t.pending) && p.iteration < t.iteration < Limit(c)
  {
    var req := RunRequest(p.runID, p.request);
    ResumeBatchCloses(c, p, rs);
    var r := ResumeBatch(c, p, rs);
    if r.Some? && r.value.Next? {
      var u := r.value.state;
      LoopPairs(c, a, req, u, u.iteration);
      if Loop(c, a, req, u, u.iteration).Paused? {
        LoopPausesBelowLimit(c, a, req, u, u.iteration);
      }
    }
  }

  type Resumer = (Checkpoint, seq<Resolution>) -> Outcome

  function ResumesWith(c: Config, a: Option<Approver>): Resumer {
    (p, rs) => Resume(c, a, p, rs)
  }

  ghost predicate Follows(resume: Resumer, p: Checkpoint, rs: seq<Resolution>, q: Checkpoint) {
    resume(p, rs).Paused? && q == Snapshot(RunRequest(p.runID, p.request), resume(p, rs).state)
  }

  /** One run's checkpoints: it pauses, is resumed with `decisions[0]`, pauses again, and so on. */
  ghost predicate PauseChain(resume: Resumer, req: RunRequest, first: Outcome, ps: seq<Checkpoint>,
                             decisions: seq<seq<Resolution>>) {
    && |decisions| == |ps| > 0
    && first.Paused? && ps[0] == Snapshot(req, first.state)
    && forall k :: 1 <= k < |ps| ==> Follows(resume, ps[k - 1], decisions[k - 1], ps[k])
  }

  ghost predicate OpenAt(c: Config, p: Checkpoint, k: int) {
    Open(p.messages, p.pending) && k <= p.iteration < Limit(c)
  }

  lemma FollowsOpen(c: Config, a: Option<Approver>, p: Checkpoint, rs: seq<Resolution>, q: Checkpoint, k: int)
    requires OpenAt(c, p, k) && Follows(ResumesWith(c, a), p, rs, q)
    ensures OpenAt(c, q, k + 1)
  {
    ResumePairs(c, a, p, rs);
  }

  /** What holds at the first pause and passes from each pause to the next holds at every pause. */
  lemma {:induction false} ChainHolds(resume: Resumer, req: RunRequest, first: Outcome, ps: seq<Checkpoint>,
                                      decisions: seq<seq<Resolution>>,
                                      inv: (Checkpoint, int) -> bool, k: nat)
    requires PauseChain(resume, req, first, ps, decisions) && k < |ps| && inv(ps[0], 0)
    requires forall p, rs, q, j :: inv(p, j) && Follows(resume, p, rs, q) ==> inv(q, j + 1)
    ensures inv(ps[k], k)
  {
    if k > 0 {
      ChainHolds(resume, req, first, ps, decisions, inv, k - 1);
      assert Follows(resume, ps[k - 1], decisions[k - 1], ps[k]);
    }
  }

  lemma ChainOpen(c: Config, a: Option<Approver>, req: RunRequest, first: Outcome, ps: seq<Checkpoint>,
                  decisions: seq<seq<Resolution>>, k: nat)
    requires PauseChain(ResumesWith(c, a), req, first, ps, decisions) && k < |ps| && OpenAt(c, ps[0], 0)
    ensures OpenAt(c, ps[k], k)
  {
    var inv := (p, j) => OpenAt(c, p, j);
    forall p, rs, q, j | inv(p, j) && Follows(ResumesWith(c, a), p, rs, q) ensures inv(q, j + 1) {
      FollowsOpen(c, a, p, rs, q, j);
    }
    ChainHolds(ResumesWith(c, a), req, first, ps, decisions, inv, k);
  }

  lemma FirstPauseOpen(c: Config, a: Option<Approver>, req: RunRequest, generated: RunID, now: int)
    ensures var s := NewState(RunIDOf(req, generated), req, now);
            AllPaired(ModelCalls(c, a, req, s, 0)) && |ModelCalls(c, a, req, s, 0)| <= Limit(c)
    ensures var first := Run(c, a, req, generated, now); first.Paused? ==> OpenAt(c, Snapshot(req, first.state), 0)
  {
    var s := NewState(RunIDOf(req, generated), req, now);
    LoopPairs(c, a, req, s, 0);
    if Loop(c, a, req, s, 0).Paused? {
      LoopPausesBelowLimit(c, a, req, s, 0);
    }
  }

  lemma OpenResumes(c: Config, a: Option<Approver>, p: Checkpoint, rs: seq<Resolution>, k: nat)
    requires OpenAt(c, p, k)
    ensures AllPaired(ResumeCalls(c, a, p, rs)) && k < Limit(c)
  {
    ResumePairs(c, a, p, rs);
  }

  /**
   Over a whole run with any pauses and any decisions: at most Limit pauses, and every resumption calls the model with
   a paired history.
   */
  lemma RunPairs(c: Config, a: Option<Approver>, req: RunRequest, generated: RunID, now: int,
                 ps: seq<Checkpoint>, decisions: seq<seq<Resolution>>, k: nat)
    requires PauseChain(ResumesWith(c, a), req, Run(c, a, req, generated, now), ps, decisions) && k < |ps|
    ensures |ps| <= Limit(c)
    ensures AllPaired(ResumeCalls(c, a, ps[k], decisions[k]))
  {
    var first := Run(c, a, req, generated, now);
    FirstPauseOpen(c, a, req, generated, now);
    ChainOpen(c, a, req, first, ps, decisions, |ps| - 1);
    ChainOpen(c, a, req, first, ps, decisions, k);
    OpenResumes(c, a, ps[k], decisions[k], k);
  }

  /** Without a projector the messages sent are the history behind at most one system message, and are paired too. */
  lemma SentPaired(c: Config, s: State)
    requires Paired(s.messages) && s.scratch.projection.None?
    ensures Paired(ChatRequestOf(c, s).messages)
  {
    if s.scratch.compiled.Some? {
      var m := Message(System, s.scratch.compiled.value, "", []);
      PairedPlain(m);
      PairedConcat([m], s.messages);
    }
  }
}
