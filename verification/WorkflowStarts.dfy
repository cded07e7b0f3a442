/**
 Which copies of a run workers may start. Starting adopts the caller's copy, so a start of an
 old claim can bring back older progress. It does exactly when the run's progress was written
 after that claim, unless starts in between had already brought back older progress; a worker
 that starts only its latest claim, once, never does it.
 */
module WorkflowStarts {
  import opened WorkflowRun
  import opened WorkflowProtocol
  import opened WorkflowProgress

  // ---- the latest claim, once -------------------------------------------------------------------

  /** An unused claim is current as long as its holder may start it. */
  predicate ClaimOk(s: System, key: (string, string))
    requires key in s.claims
  {
    var (id, worker) := key;
    && id in s.runs && worker != ""
    && s.claims[key].id == id && s.claims[key].leaseOwner == worker
    && (s.runs[id].leaseOwner == worker ==>
          && (s.runs[id].status.Pending? ==> SameProgress(s.claims[key], s.runs[id]))
          && !s.runs[id].status.Running? && !s.runs[id].status.WaitingApproval?)
  }

  predicate ClaimsOk(s: System) {
    forall key :: key in s.claims ==> ClaimOk(s, key)
  }

  /** A worker starts only its latest claim, once; a caller without a lease starts a copy that is up to date. */
  predicate Disciplined(s: System, e: Event) {
    e.Start? && e.copy.id in s.runs ==>
      if e.copy.leaseOwner != "" then
        (e.copy.id, e.copy.leaseOwner) in s.claims && s.claims[(e.copy.id, e.copy.leaseOwner)] == e.copy
      else SameProgress(e.copy, s.runs[e.copy.id])
  }

  predicate DisciplinedRun(c: Config, s: System, es: seq<Event>)
    decreases es
  {
    es != [] ==> Disciplined(s, es[0]) && DisciplinedRun(c, Apply(c, s, es[0]), es[1..])
  }

  lemma DisciplinedCurrent(s: System, e: Event)
    requires ClaimsOk(s) && Disciplined(s, e)
    ensures CurrentStart(s, e)
  {
    if Accepts(s, e) && e.copy.leaseOwner != "" {
      assert ClaimOk(s, (e.copy.id, e.copy.leaseOwner));
    }
  }

  lemma StoreKeepsClaim(s: System, e: Event, key: (string, string))
    requires key in ApplyStore(s, e).claims && (key in s.claims ==> ClaimOk(s, key))
    requires forall id :: id in s.runs ==> s.runs[id].id == id
    ensures ClaimOk(ApplyStore(s, e), key)
  {
    var s' := ApplyStore(s, e);
    if Claims(s, e) && key == (e.id, e.worker) {
      assert s'.claims[key] == s'.runs[key.0];
    } else {
      assert s'.claims[key] == s.claims[key];
    }
  }

  lemma SaveKeepsClaim(c: Config, s: System, sid: nat, key: (string, string))
    requires Safe(c, s) && key in s.claims && ClaimOk(s, key)
    ensures key in ApplySave(c, s, sid).claims && ClaimOk(ApplySave(c, s, sid), key)
  {
    SaveTouches(c, s, sid, key.0);
  }

  lemma BeginKeepsClaim(c: Config, s: System, e: Event, key: (string, string))
    requires Safe(c, s) && (e.Start? || e.Resume?) && key in Apply(c, s, e).claims && key in s.claims && ClaimOk(s, key)
    ensures ClaimOk(Apply(c, s, e), key)
  {
    assert key == (key.0, key.1);
  }

  lemma LocalKeepsClaim(c: Config, s: System, e: Event, key: (string, string))
    requires (e.Body? || e.Abandon? || e.Enqueue?) && key in s.claims && ClaimOk(s, key)
    ensures key in Apply(c, s, e).claims && ClaimOk(Apply(c, s, e), key)
  {
  }

  lemma KeepsClaim(c: Config, s: System, e: Event, key: (string, string))
    requires Safe(c, s) && key in Apply(c, s, e).claims && (key in s.claims ==> ClaimOk(s, key))
    ensures ClaimOk(Apply(c, s, e), key)
  {
    match e
    case Save(sid) => SaveKeepsClaim(c, s, sid, key);
    case Start(_, _) => BeginKeepsClaim(c, s, e, key);
    case Resume(_, _, _) => BeginKeepsClaim(c, s, e, key);
    case Body(_, _, _, _) => LocalKeepsClaim(c, s, e, key);
    case Abandon(_) => LocalKeepsClaim(c, s, e, key);
    case Enqueue(_) => LocalKeepsClaim(c, s, e, key);
    case _ => StoreKeepsClaim(s, e, key);
  }

  lemma ClaimsStep(c: Config, s: System, e: Event)
    requires Safe(c, s) && ClaimsOk(s)
    ensures ClaimsOk(Apply(c, s, e))
  {
    forall key | key in Apply(c, s, e).claims
      ensures ClaimOk(Apply(c, s, e), key)
    {
      assert key in s.claims ==> ClaimOk(s, key);
      KeepsClaim(c, s, e, key);
    }
  }

  lemma {:induction false} DisciplinedIsCurrent(c: Config, s: System, es: seq<Event>)
    requires Safe(c, s) && ClaimsOk(s) && DisciplinedRun(c, s, es)
    ensures CurrentRun(c, s, es)
    decreases es
  {
    if es != [] {
      DisciplinedCurrent(s, es[0]);
      ClaimsStep(c, s, es[0]);
      SafeStep(c, s, es[0]);
      DisciplinedIsCurrent(c, Apply(c, s, es[0]), es[1..]);
    }
  }

  /** Workers that start only their latest claim, once, never bring back older progress. */
  lemma LatestClaimsAreCurrent(c: Config, es: seq<Event>)
    requires DisciplinedRun(c, Empty(), es)
    ensures CurrentRun(c, Empty(), es)
  {
    DisciplinedIsCurrent(c, Empty(), es);
  }

  lemma {:induction false} CurrentIsEarlier(c: Config, past: seq<System>, s: System, es: seq<Event>)
    requires CurrentRun(c, s, es)
    ensures EarlierRun(c, past, s, es)
    decreases es
  {
    if es != [] {
      assert (past + [s])[|past|] == s;
      CurrentIsEarlier(c, past + [s], Apply(c, s, es[0]), es[1..]);
    }
  }

  /** So for them every bound holds: completed prefixes, attempts and executed bodies. */
  lemma LatestClaimsBounded(c: Config, es: seq<Event>, id: string, n: string)
    requires c.Distinct() && DisciplinedRun(c, Empty(), es)
    ensures var s := Exec(c, Empty(), es);
            && s.bodies[Execution(id, n)] <= c.Limit()
            && (id in s.runs ==> s.runs[id].completedSteps <= c.steps && Attempts(s.runs[id], n) <= c.Limit())
  {
    LatestClaimsAreCurrent(c, es);
    CurrentIsEarlier(c, [], Empty(), es);
    BodiesBounded(c, es, id, n);
    if id in Exec(c, Empty(), es).runs {
      CompletedPrefixAndAttempts(c, es, id, n);
    }
  }

  /** What a claim returns is a copy handed out. */
  lemma ClaimHandsOut(c: Config, s: System, e: Event)
    requires Safe(c, s) && Claims(s, e)
    ensures HandedOut(Apply(c, s, e), RunAfter(e, e.id, s.runs[e.id]))
  {
  }

  // ---- exactly when a start loses progress -------------------------------------------------------

  predicate Changes(c: Config, s: System, e: Event, id: string) {
    id in s.runs && id in Apply(c, s, e).runs && !SameProgress(s.runs[id], Apply(c, s, e).runs[id])
  }

  /** No event of the run changes the stored progress of `id`. */
  predicate Untouched(c: Config, s: System, es: seq<Event>, id: string)
    decreases es
  {
    es != [] ==> !Changes(c, s, es[0], id) && Untouched(c, Apply(c, s, es[0]), es[1..], id)
  }

  /** No completed step and no attempt of r is missing from r'. */
  ghost predicate NothingLost(r: Run, r': Run) {
    forall n :: Grows(r, r', n)
  }

  /** r has all of the copy's progress, and the same or strictly more of it. */
  ghost predicate Beyond(copy: Run, r: Run) {
    |copy.completedSteps| < |r.completedSteps| || exists n :: Attempts(copy, n) < Attempts(r, n)
  }

  ghost predicate AtOrBeyond(copy: Run, r: Run) {
    NothingLost(copy, r) && (SameProgress(copy, r) || Beyond(copy, r))
  }

  /** The write of a session that starts from a progress with no attempt under way only adds to it. */
  lemma AdvanceBeyond(c: Config, copy: Run, run: Run, pc: PC)
    requires c.Distinct() && Ready(c, copy) && SameProgress(copy, run)
    requires PCValid(c, pc) && Saves(pc) && Accounted(c, run, pc)
    ensures var (next, _) := Advance(c, run, pc); SameProgress(copy, next) || Beyond(copy, next)
  {
    var (next, _) := Advance(c, run, pc);
    match pc
    case Attempting(i) => assert Attempts(next, c.steps[i]) == Attempts(copy, c.steps[i]) + 1;
    case Settling(i, result) => TouchedNext(c, run, c.steps[i]);
    case _ =>
  }

  lemma SaveBeyond(c: Config, s: System, sid: nat, id: string, copy: Run)
    requires c.Distinct() && Progress(c, s) && id in s.runs && Ready(c, copy) && SameProgress(copy, s.runs[id])
    ensures var r' := ApplySave(c, s, sid).runs[id]; SameProgress(copy, r') || Beyond(copy, r')
  {
    if Active(s, sid) && Saves(s.sessions[sid].pc) && s.sessions[sid].run.id == id {
      assert SessionOk(c, s, s.sessions[sid]);
      AdvanceBeyond(c, copy, s.sessions[sid].run, s.sessions[sid].pc);
    }
  }

  /** The first event that changes the progress of a copy handed out only adds to it. */
  lemma FirstChange(c: Config, s: System, e: Event, id: string, copy: Run)
    requires c.Distinct() && Progress(c, s) && CurrentStart(s, e) && id in s.runs
    requires Ready(c, copy) && SameProgress(copy, s.runs[id])
    ensures id in Apply(c, s, e).runs
    ensures var r' := Apply(c, s, e).runs[id]; SameProgress(copy, r') || Beyond(copy, r')
  {
    match e
    case Save(sid) => SaveBeyond(c, s, sid, id, copy);
    case Start(_, _) =>
    case Resume(_, _, _) => OthersKeepProgress(c, s, e, id);
    case Body(_, _, _, _) => OthersKeepProgress(c, s, e, id);
    case Abandon(_) => OthersKeepProgress(c, s, e, id);
    case Enqueue(_) => OthersKeepProgress(c, s, e, id);
    case _ => StoreKeepsRun(c, e, id, s.runs[id]);
  }

  lemma StepBeyond(c: Config, s: System, e: Event, id: string, copy: Run)
    requires c.Distinct() && Progress(c, s) && CurrentStart(s, e) && id in s.runs
    requires Ready(c, copy) && AtOrBeyond(copy, s.runs[id])
    ensures id in Apply(c, s, e).runs && AtOrBeyond(copy, Apply(c, s, e).runs[id])
    ensures Beyond(copy, s.runs[id]) || Changes(c, s, e, id) ==> Beyond(copy, Apply(c, s, e).runs[id])
  {
    RunMonotone(c, s, e, id, "");
    var r, r' := s.runs[id], Apply(c, s, e).runs[id];
    forall n ensures Grows(r, r', n) && Grows(copy, r', n) {
      RunMonotone(c, s, e, id, n);
      assert Grows(copy, r, n);
    }
    if Beyond(copy, r) {
      GrowsBeyond(copy, r, r');
    } else {
      FirstChange(c, s, e, id, copy);
    }
  }

  lemma GrowsBeyond(copy: Run, r: Run, r': Run)
    requires Beyond(copy, r) && NothingLost(r, r')
    ensures Beyond(copy, r')
  {
    assert Grows(r, r', "");
    if |copy.completedSteps| >= |r.completedSteps| {
      var n :| Attempts(copy, n) < Attempts(r, n);
      assert Grows(r, r', n);
    }
  }

  /** Once a write has changed the progress of a copy that was handed out, it stays beyond the copy. */
  lemma {:induction false} TouchedIffBeyond(c: Config, s: System, es: seq<Event>, id: string, copy: Run)
    requires c.Distinct() && Progress(c, s) && CurrentRun(c, s, es) && id in s.runs
    requires Ready(c, copy) && AtOrBeyond(copy, s.runs[id])
    ensures id in Exec(c, s, es).runs && AtOrBeyond(copy, Exec(c, s, es).runs[id])
    ensures Beyond(copy, s.runs[id]) || !Untouched(c, s, es, id) ==> Beyond(copy, Exec(c, s, es).runs[id])
    ensures SameProgress(copy, s.runs[id]) && Untouched(c, s, es, id) ==> SameProgress(copy, Exec(c, s, es).runs[id])
    decreases es
  {
    if es != [] {
      StepBeyond(c, s, es[0], id, copy);
      CurrentReady(c, s, es[0]);
      ProgressStep(c, s, es[0]);
      TouchedIffBeyond(c, Apply(c, s, es[0]), es[1..], id, copy);
    }
  }

  lemma SameLosesNothing(r: Run, r': Run)
    requires SameProgress(r, r')
    ensures NothingLost(r, r') && !Beyond(r', r)
  {
  }

  lemma BeyondLoses(copy: Run, r: Run)
    requires Beyond(copy, r)
    ensures !NothingLost(r, copy) && !SameProgress(r, copy)
  {
    if |copy.completedSteps| < |r.completedSteps| {
      assert !Grows(r, copy, "");
    } else {
      var n :| Attempts(copy, n) < Attempts(r, n);
      assert !Grows(r, copy, n);
    }
  }

  lemma RunsStay(c: Config, s: System, e: Event, id: string)
    requires id in s.runs
    ensures id in Apply(c, s, e).runs
  {
  }

  lemma {:induction false} UntouchedSame(c: Config, s: System, es: seq<Event>, id: string, copy: Run)
    requires id in s.runs && SameProgress(copy, s.runs[id]) && Untouched(c, s, es, id)
    ensures id in Exec(c, s, es).runs && SameProgress(copy, Exec(c, s, es).runs[id])
    decreases es
  {
    if es != [] {
      RunsStay(c, s, es[0], id);
      UntouchedSame(c, Apply(c, s, es[0]), es[1..], id, copy);
    }
  }

  /**
   A copy is claimed, other events follow, and then the copy is started and accepted. If no write since the claim
   changed the run's progress, the start loses nothing. If moreover the starts in between brought back no older
   progress, it loses nothing only then. Before the claim any earlier claims may have been started.
   */
  lemma StartKeepsProgressIff(c: Config, before: seq<Event>, claim: Event, es: seq<Event>, sid: nat)
    requires c.Distinct() && EarlierRun(c, [], Empty(), before) && Claims(Exec(c, Empty(), before), claim)
    requires var s := Apply(c, Exec(c, Empty(), before), claim);
             Accepts(Exec(c, s, es), Start(sid, s.runs[claim.id]))
    ensures var s := Apply(c, Exec(c, Empty(), before), claim);
            var copy := s.runs[claim.id];
            var r, r' := Exec(c, s, es).runs[copy.id], Apply(c, Exec(c, s, es), Start(sid, copy)).runs[copy.id];
            && (Untouched(c, s, es, claim.id) ==> NothingLost(r, r') && SameProgress(r, r'))
            && (CurrentRun(c, s, es) ==>
                  && (NothingLost(r, r') <==> Untouched(c, s, es, claim.id))
                  && (SameProgress(r, r') <==> Untouched(c, s, es, claim.id)))
  {
    var s0 := Exec(c, Empty(), before);
    EarlierExec(c, [], Empty(), before);
    ProgressStep(c, s0, claim);
    ClaimHandsOut(c, s0, claim);
    var s := Apply(c, s0, claim);
    StartDecides(c, s, claim.id, es, sid);
  }

  lemma StartDecides(c: Config, s: System, id: string, es: seq<Event>, sid: nat)
    requires c.Distinct() && Progress(c, s) && id in s.runs && HandedOut(s, s.runs[id])
    requires Accepts(Exec(c, s, es), Start(sid, s.runs[id]))
    ensures var copy := s.runs[id];
            var r, r' := Exec(c, s, es).runs[copy.id], Apply(c, Exec(c, s, es), Start(sid, copy)).runs[copy.id];
            && (Untouched(c, s, es, id) ==> NothingLost(r, r') && SameProgress(r, r'))
            && (CurrentRun(c, s, es) ==>
                  && (NothingLost(r, r') <==> Untouched(c, s, es, id))
                  && (SameProgress(r, r') <==> Untouched(c, s, es, id)))
  {
    var copy := s.runs[id];
    var s2 := Exec(c, s, es);
    var r, r' := s2.runs[copy.id], Apply(c, s2, Start(sid, copy)).runs[copy.id];
    assert SameProgress(copy, r');
    if Untouched(c, s, es, id) {
      UntouchedSame(c, s, es, id, copy);
      SameLosesNothing(r, r');
    } else if CurrentRun(c, s, es) {
      HandedOutReady(c, s, copy);
      SameLosesNothing(copy, copy);
      TouchedIffBeyond(c, s, es, id, copy);
      BeyondSame(copy, r', r);
      BeyondLoses(r', r);
    }
  }

  lemma BeyondSame(copy: Run, copy': Run, r: Run)
    requires Beyond(copy, r) && SameProgress(copy, copy')
    ensures Beyond(copy', r)
  {
    if |copy.completedSteps| >= |r.completedSteps| {
      var n :| Attempts(copy, n) < Attempts(r, n);
      assert Attempts(copy', n) == Attempts(copy, n);
    }
  }

  // ---- two runs that show it -----------------------------------------------------------------------

  const NO_REFS := Refs("", "", "", "", "", "", map[])
  const QUEUED := Run("w", Pending, "", NO_REFS, "", [], map[], [], 0, ZERO_TIME, "", ZERO_TIME, ZERO_TIME)
  const TWO_TRIES := Config(["a"], 2)
  const TRANSIENT := Outcome(StepResult(NoStatus, NO_REFS), StepError("busy", true, false, false))
  const CLAIMED := ClaimUpdate(QUEUED, "A", 10, 1)

  /** One attempt of a session: it enters the step, saves the attempt, fails and yields. */
  function Try(sid: nat, now: Time): seq<Event> {
    [Save(sid), Save(sid), Body(sid, TRANSIENT, 5, now), Save(sid)]
  }

  /** A session of worker A at the start of a run without progress. */
  predicate AtStart(s: System, sid: nat) {
    && sid in s.sessions && s.sessions[sid].pc == AtStep(0) && "w" in s.runs && s.runs["w"] == s.sessions[sid].run
    && var r := s.runs["w"];
    && r.id == "w" && r.status == Running && r.leaseOwner == "A"
    && r.completedSteps == [] && r.stepAttempts == map[] && r.stepRetries == 0
  }

  /** What one attempt leaves: the run pending again with one attempt on record. */
  predicate Yielded(s: System, s': System, sid: nat, now: Time) {
    && "w" in s'.runs
    && var r := s'.runs["w"];
    && r.id == "w" && r.status == Pending && r.leaseOwner == "A" && r.nextAttemptAt == now + 5
    && r.completedSteps == [] && r.stepAttempts == map["a" := 1] && r.stepRetries == 1
    && ("w" in s.runs ==> r.leaseUntil == s.runs["w"].leaseUntil)
    && s'.bodies == s.bodies + multiset{Execution("w", "a")} && s'.claims == s.claims
    && s'.sessions.Keys == s.sessions.Keys
  }

  lemma TryEnters(s: System, sid: nat)
    requires AtStart(s, sid)
    ensures var s' := Apply(TWO_TRIES, s, Save(sid));
            && s'.bodies == s.bodies && s'.claims == s.claims && s'.sessions.Keys == s.sessions.Keys && "w" in s'.runs
            && s'.runs["w"] == s.runs["w"].(currentStep := "a")
            && s'.sessions[sid] == Session(s'.runs["w"], Attempting(0))
  {
    assert NextStep(TWO_TRIES.steps, [], 0) == 0;
  }

  lemma TryAttempts(s: System, sid: nat, r: Run)
    requires sid in s.sessions && s.sessions[sid] == Session(r, Attempting(0)) && "w" in s.runs && s.runs["w"] == r
    requires r.id == "w" && r.status == Running && r.stepAttempts == map[]
    ensures var s' := Apply(TWO_TRIES, s, Save(sid));
            && s'.bodies == s.bodies && s'.claims == s.claims && s'.sessions.Keys == s.sessions.Keys && "w" in s'.runs
            && s'.runs["w"] == r.(stepAttempts := map["a" := 1], nextAttemptAt := ZERO_TIME)
            && s'.sessions[sid] == Session(s'.runs["w"], InBody(0))
  {
  }

  lemma TryFails(s: System, sid: nat, r: Run, now: Time)
    requires sid in s.sessions && s.sessions[sid] == Session(r, InBody(0)) && "w" in s.runs && s.runs["w"] == r
    requires r.id == "w" && r.status == Running && r.leaseOwner == "A" && r.completedSteps == []
    requires r.stepAttempts == map["a" := 1] && r.stepRetries == 0
    ensures Yielded(s, Apply(TWO_TRIES, Apply(TWO_TRIES, s, Body(sid, TRANSIENT, 5, now)), Save(sid)), sid, now)
  {
    var s1 := ApplyBody(TWO_TRIES, s, sid, TRANSIENT, 5, now);
    assert s1.sessions[sid] == Session(r, Returned(0, TRANSIENT, 5, now)) && s1.runs == s.runs;
    assert Retryable(CheckedError(TRANSIENT), 0, TWO_TRIES.Limit());
  }

  lemma OneTry(s: System, sid: nat, now: Time)
    requires AtStart(s, sid)
    ensures Yielded(s, Exec(TWO_TRIES, s, Try(sid, now)), sid, now)
  {
    var c, es := TWO_TRIES, Try(sid, now);
    var s1 := Apply(c, s, es[0]);
    TryEnters(s, sid);
    var s2 := Apply(c, s1, es[1]);
    TryAttempts(s1, sid, s1.runs["w"]);
    TryFails(s2, sid, s2.runs["w"], now);
    var s3 := Apply(c, s2, es[2]);
    var s4 := Apply(c, s3, es[3]);
    assert Exec(c, s3, es[3..]) == s4;
    assert Exec(c, s2, es[2..]) == s4;
    assert Exec(c, s1, es[1..]) == s4;
  }

  /** The old claim of worker A is accepted whenever the run is pending under A. */
  lemma OldClaimStarts(s: System, sid: nat)
    requires sid !in s.sessions && "w" in s.runs && s.runs["w"].status == Pending && s.runs["w"].leaseOwner == "A"
    ensures Accepts(s, Start(sid, CLAIMED)) && AtStart(Apply(TWO_TRIES, s, Start(sid, CLAIMED)), sid)
    ensures var s' := Apply(TWO_TRIES, s, Start(sid, CLAIMED));
            && s'.bodies == s.bodies && s'.sessions.Keys == s.sessions.Keys + {sid}
            && s'.runs["w"].leaseUntil == s.runs["w"].leaseUntil
  {
  }

  const ENQUEUE_AND_CLAIM := [Enqueue(QUEUED), Claim("w", "A", 10, 1)]

  lemma Claimed() returns (s: System)
    ensures s == Exec(TWO_TRIES, Empty(), ENQUEUE_AND_CLAIM) && s.runs == map["w" := CLAIMED]
    ensures s.sessions == map[] && s.bodies == multiset{}
  {
    var c, es := TWO_TRIES, ENQUEUE_AND_CLAIM;
    var s1 := Apply(c, Empty(), es[0]);
    s := Apply(c, s1, es[1]);
    assert Exec(c, s1, es[1..]) == s;
  }

  /** Claim, start, one failed attempt. */
  const FIRST_TRY := ENQUEUE_AND_CLAIM + ([Start(0, CLAIMED)] + Try(0, 2))

  lemma FirstTry() returns (s: System)
    ensures s == Exec(TWO_TRIES, Empty(), FIRST_TRY) && s.sessions.Keys == {0}
    ensures s.bodies == multiset{Execution("w", "a")}
    ensures "w" in s.runs && s.runs["w"].leaseUntil == 11
    ensures var r := s.runs["w"]; r.id == "w" && r.status == Pending && r.leaseOwner == "A" && r.nextAttemptAt == 7
    ensures s.runs["w"].stepAttempts == map["a" := 1] && s.runs["w"].completedSteps == []
    ensures s.runs["w"].stepRetries == 1
  {
    var s0 := Claimed();
    OldClaimStarts(s0, 0);
    var s1 := Apply(TWO_TRIES, s0, Start(0, CLAIMED));
    OneTry(s1, 0, 2);
    s := Exec(TWO_TRIES, s1, Try(0, 2));
    StartThenTry(s0, 0, CLAIMED, 2);
    ExecConcat(TWO_TRIES, Empty(), ENQUEUE_AND_CLAIM, [Start(0, CLAIMED)] + Try(0, 2));
  }

  lemma StartThenTry(s: System, sid: nat, copy: Run, now: Time)
    ensures Exec(TWO_TRIES, s, [Start(sid, copy)] + Try(sid, now))
            == Exec(TWO_TRIES, Apply(TWO_TRIES, s, Start(sid, copy)), Try(sid, now))
  {
    var es := [Start(sid, copy)] + Try(sid, now);
    assert es[0] == Start(sid, copy) && es[1..] == Try(sid, now);
  }

  /**
   A worker claims, yields after a failed attempt, and starts the copy of its old claim once more:
   the store accepts it and forgets the attempt.
   */
  lemma StaleStartLosesProgress()
    ensures var s := Exec(TWO_TRIES, Empty(), FIRST_TRY);
            var s' := Apply(TWO_TRIES, s, Start(1, CLAIMED));
            && "w" in s.runs && Attempts(s.runs["w"], "a") == 1 == s.bodies[Execution("w", "a")]
            && "w" in s'.runs && Attempts(s'.runs["w"], "a") == 0 && Active(s', 1)
  {
    var s := FirstTry();
    OldClaimStarts(s, 1);
  }

  /**
   Why starts in between matter: the worker claims once more after its failed attempt, but starts its old claim, fails
   again and yields. Two bodies ran and the run shows one attempt, as it did at the second claim. So starting that
   claim now loses nothing, although the progress was written twice since.
   */
  lemma StaleStartHidesWrites()
    ensures var c, claim, es := TWO_TRIES, Claim("w", "A", 10, 20), [Start(1, CLAIMED)] + Try(1, 21);
            var s := Apply(c, Exec(c, Empty(), FIRST_TRY), claim);
            && Claims(Exec(c, Empty(), FIRST_TRY), claim) && "w" in s.runs
            && Accepts(Exec(c, s, es), Start(2, s.runs["w"]))
            && "w" in Exec(c, s, es).runs && SameProgress(s.runs["w"], Exec(c, s, es).runs["w"])
            && !Untouched(c, s, es, "w")
            && Exec(c, s, es).bodies[Execution("w", "a")] == 2 == Attempts(s.runs["w"], "a") + 1
  {
    var c, claim, es := TWO_TRIES, Claim("w", "A", 10, 20), [Start(1, CLAIMED)] + Try(1, 21);
    var s0 := FirstTry();
    assert Claimable(s0.runs["w"], 20);
    var s := Apply(c, s0, claim);
    OldClaimStarts(s, 1);
    StartThenTry(s, 1, CLAIMED, 21);
    var s1 := Apply(c, s, Start(1, CLAIMED));
    OneTry(s1, 1, 21);
    assert es[0] == Start(1, CLAIMED);
    assert Changes(c, s, es[0], "w");
  }
}
