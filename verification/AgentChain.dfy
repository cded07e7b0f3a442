/**
 Any number of pauses: as long as no resumed run outlives the iteration limit, a run resumed again and
 again is the run whose approver allowed all of those batches, and the first one to outlive it is not.
 */
module AgentChain {
  import opened Wrappers
  import opened AgentState
  import opened AgentPass
  import opened AgentPairing
  import opened AgentResume
  import opened AgentEquivalence

  /** The approver that allows every call of the first n batches. */
  function AllowEach(a: Option<Approver>, ps: seq<Checkpoint>, n: nat): Option<Approver>
    requires n <= |ps|
  {
    if n == 0 then a else AllowAt(AllowEach(a, ps, n - 1), ps[n - 1].llmCalls)
  }

  ghost predicate AgreeAfter(a: Option<Approver>, b: Option<Approver>, n: nat) {
    forall k: nat :: k > n ==> Agree(a, b, k)
  }

  lemma {:induction false} AllowEachAgrees(a: Option<Approver>, ps: seq<Checkpoint>, n: nat, batch: nat)
    requires n <= |ps| && forall k :: 0 <= k < n ==> ps[k].llmCalls < batch
    ensures Agree(AllowEach(a, ps, n), a, batch)
  {
    if n > 0 {
      AllowEachAgrees(a, ps, n - 1, batch);
    }
  }

  lemma AllowEachAgreesAfter(a: Option<Approver>, ps: seq<Checkpoint>, n: nat, last: nat)
    requires n <= |ps| && forall k :: 0 <= k < n ==> ps[k].llmCalls < last
    ensures AgreeAfter(AllowEach(a, ps, n), a, last)
  {
    forall j: nat | j > last ensures Agree(AllowEach(a, ps, n), a, j) {
      AllowEachAgrees(a, ps, n, j);
    }
  }

  // ---- A resumed run ----

  lemma ResumedBatchFacts(c: Config, p: Checkpoint, rs: seq<Resolution>)
    ensures var r := ResumeBatch(c, p, rs);
            r.Some? && r.value.Next? ==>
              && r.value.state.toolResults == [] && r.value.state.summary.llmCalls == p.llmCalls
              && r.value.state.runID == p.runID
  {
    var h := Rehydrate(c, RunRequest(p.runID, p.request), Restored(p));
    if h.Next? {
      ActFacts(c, p.request, h.state);
      ActKeepsID(c, p.request, h.state);
    }
  }

  lemma ActKeepsID(c: Config, rq: Request, s: State)
    ensures ActAndObserve(c, rq, s).state.runID == s.runID
  {
  }

  /** A resumed run asks the approver only about later batches. */
  lemma ResumeAgree(c: Config, a: Option<Approver>, b: Option<Approver>, p: Checkpoint, rs: seq<Resolution>)
    requires forall k: nat :: k > p.llmCalls ==> Agree(a, b, k)
    ensures Resume(c, a, p, rs) == Resume(c, b, p, rs)
  {
    ResumedBatchFacts(c, p, rs);
    var r := ResumeBatch(c, p, rs);
    if r.Some? && r.value.Next? {
      LoopAgree(c, a, b, RunRequest(p.runID, p.request), r.value.state, r.value.state.iteration);
    }
  }

  lemma {:induction false} LoopPausesLater(c: Config, a: Option<Approver>, req: RunRequest, s: State, i: int)
    requires s.toolResults == [] && Loop(c, a, req, s, i).Paused?
    ensures Loop(c, a, req, s, i).state.summary.llmCalls > s.summary.llmCalls
    decreases Limit(c) - i
  {
    PassCounts(c, a, req, s);
    var r := Pass(c, a, req, s);
    if r.Next? {
      LoopPausesLater(c, a, req, r.state, i + 1);
    }
  }

  /** The next checkpoint of a run belongs to the same run and request, and to a later model call. */
  lemma FollowsLater(c: Config, a: Option<Approver>, p: Checkpoint, rs: seq<Resolution>, q: Checkpoint)
    requires Follows(ResumesWith(c, a), p, rs, q)
    ensures q.request == p.request && q.llmCalls > p.llmCalls
  {
    ResumedBatchFacts(c, p, rs);
    var t := ResumeBatch(c, p, rs).value.state;
    LoopPausesLater(c, a, RunRequest(p.runID, p.request), t, t.iteration);
  }

  ghost predicate Later(p: Checkpoint, q: Checkpoint) {
    q.request == p.request && q.llmCalls > p.llmCalls
  }

  lemma {:induction false} ChainLater(resume: Resumer, req: RunRequest, first: Outcome, ps: seq<Checkpoint>,
                                      decisions: seq<seq<Resolution>>, k: nat)
    requires PauseChain(resume, req, first, ps, decisions) && k < |ps|
    requires forall p, rs, q :: Follows(resume, p, rs, q) ==> Later(p, q)
    ensures ps[k].request == req.request && forall j :: 0 <= j < k ==> ps[j].llmCalls < ps[k].llmCalls
  {
    if k > 0 {
      ChainLater(resume, req, first, ps, decisions, k - 1);
      assert Follows(resume, ps[k - 1], decisions[k - 1], ps[k]);
    }
  }

  lemma SnapshotOfStripped(req: RunRequest, req': RunRequest, s: State, t: State)
    requires Strip(s) == Strip(t) && req.request == req'.request
    ensures Snapshot(req, s) == Snapshot(req', t)
  {
    assert s == t.(scratch := s.scratch);
  }

  // ---- The chain ----

  /** The pause is resolved by allowing its whole batch. */
  ghost predicate Approved(c: Config, p: Checkpoint, rs: seq<Resolution>) {
    ValidCheckpoint(c, p) && Covers(p.pending, rs) && AllAllowed(rs)
  }

  /** No model answer before the pause was empty, or the run that did not pause ended before the limit. */
  ghost predicate Fine(p: Checkpoint, direct: Outcome) {
    p.llmCalls == p.iteration + 1 || !HitsLimit(direct)
  }

  /** Resuming a run's first pause, and nothing before it, matches allowing its batch exactly where that is fine. */
  ghost predicate StepMatches(resume: Resumer, run: Option<Approver> -> Outcome, c: Config, a: Option<Approver>,
                              req: RunRequest) {
    forall b, p, rs ::
      run(b).Paused? && p == Snapshot(req, run(b).state) && Approved(c, p, rs) && AgreeAfter(b, a, p.llmCalls)
      ==> (Same(resume(p, rs), run(AllowAt(b, p.llmCalls))) <==> Fine(p, run(AllowAt(b, p.llmCalls))))
  }

  function RunsWith(c: Config, req: RunRequest, generated: RunID, now: int): Option<Approver> -> Outcome {
    a => Run(c, a, req, generated, now)
  }

  lemma ChainStep(c: Config, a: Option<Approver>, req: RunRequest, generated: RunID, now: int)
    requires Hosted(c, req, RunIDOf(req, generated))
    ensures StepMatches(ResumesWith(c, a), RunsWith(c, req, generated, now), c, a, req)
  {
    forall b, p, rs | Run(c, b, req, generated, now).Paused? && p == Snapshot(req, Run(c, b, req, generated, now).state)
                      && Approved(c, p, rs) && AgreeAfter(b, a, p.llmCalls)
      ensures Same(Resume(c, a, p, rs), Run(c, AllowAt(b, p.llmCalls), req, generated, now)) <==>
              Fine(p, Run(c, AllowAt(b, p.llmCalls), req, generated, now))
    {
      ResumeMatchesAllowed(c, b, req, generated, now, rs);
      ResumeAgree(c, b, a, p, rs);
    }
  }

  lemma {:induction false} ChainOf(resume: Resumer, run: Option<Approver> -> Outcome, c: Config, a: Option<Approver>,
                                   req: RunRequest,
                                   ps: seq<Checkpoint>, decisions: seq<seq<Resolution>>, k: nat)
    requires PauseChain(resume, req, run(a), ps, decisions) && k < |ps|
    requires forall p, rs, q :: Follows(resume, p, rs, q) ==> Later(p, q)
    requires StepMatches(resume, run, c, a, req)
    requires forall j :: 0 <= j <= k ==> Approved(c, ps[j], decisions[j])
    requires forall j :: 0 <= j < k ==> Fine(ps[j], run(AllowEach(a, ps, j + 1)))
    ensures Same(resume(ps[k], decisions[k]), run(AllowEach(a, ps, k + 1))) <==>
            Fine(ps[k], run(AllowEach(a, ps, k + 1)))
  {
    var b := AllowEach(a, ps, k);
    ChainLater(resume, req, run(a), ps, decisions, k);
    AllowEachAgreesAfter(a, ps, k, ps[k].llmCalls);
    if k > 0 {
      ChainOf(resume, run, c, a, req, ps, decisions, k - 1);
      ChainLater(resume, req, run(a), ps, decisions, k - 1);
      var p := ps[k - 1];
      assert Follows(resume, p, decisions[k - 1], ps[k]);
      SnapshotOfStripped(RunRequest(p.runID, p.request), req, resume(p, decisions[k - 1]).state, run(b).state);
    }
    assert Approved(c, ps[k], decisions[k]);
  }

  /**
   Along a chain of pauses and approvals, up to and including the first resumption that is not fine: the resumed run is
   where the run that allowed those batches at once is exactly if the resumption is fine.
   */
  lemma ChainMatches(c: Config, a: Option<Approver>, req: RunRequest, generated: RunID, now: int,
                     ps: seq<Checkpoint>, decisions: seq<seq<Resolution>>, k: nat)
    requires Hosted(c, req, RunIDOf(req, generated)) && k < |ps|
    requires PauseChain(ResumesWith(c, a), req, Run(c, a, req, generated, now), ps, decisions)
    requires forall j :: 0 <= j <= k ==> Approved(c, ps[j], decisions[j])
    requires forall j :: 0 <= j < k ==> Fine(ps[j], Run(c, AllowEach(a, ps, j + 1), req, generated, now))
    ensures Same(Resume(c, a, ps[k], decisions[k]), Run(c, AllowEach(a, ps, k + 1), req, generated, now)) <==>
            Fine(ps[k], Run(c, AllowEach(a, ps, k + 1), req, generated, now))
  {
    forall p, rs, q | Follows(ResumesWith(c, a), p, rs, q) ensures Later(p, q) {
      FollowsLater(c, a, p, rs, q);
    }
    ChainStep(c, a, req, generated, now);
    ChainOf(ResumesWith(c, a), RunsWith(c, req, generated, now), c, a, req, ps, decisions, k);
  }
}
