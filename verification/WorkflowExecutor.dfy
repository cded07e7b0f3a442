/**
 The executor's own loops, runFrom and runStepWithRetry, over a world in which every other
 actor may act between any two of its writes. They are proved to do nothing but take the
 steps of one session of the transition system, to terminate whatever the others do, and to end
 with what is stored.
 */
module WorkflowExecutor {
  import opened Wrappers
  import opened WorkflowRun
  import opened WorkflowProtocol
  import WorkflowOutcomes

  /** How an executor call ends; Stopped covers preemption and a cancelled context. */
  datatype End = Finished | Yielded | Stopped | StepFailed(err: StepError)

  /** How a step ends: with a result, giving up, put back for a later retry, or without its run. */
  datatype StepEnd = Returned(result: StepResult) | Gave(failed: StepResult, err: StepError) | Backoff | Halted

  /** The last body of a step: the run it was given, and what the environment chose. */
  datatype Tried = Tried(run: Run, outcome: Outcome, delay: nat, now: Time)

  /** The step body reported that its run was taken over. */
  predicate Preempts(o: Outcome) {
    CheckedError(o).StepError? && CheckedError(o).preempted
  }

  predicate ActsOn(e: Event, sid: nat) {
    (e.Save? || e.Body? || e.Abandon?) && e.sid == sid
  }

  function Others(es: seq<Event>, sid: nat): seq<Event> {
    if es == [] then [] else (if ActsOn(es[0], sid) then [] else [es[0]]) + Others(es[1..], sid)
  }

  /** Nobody but a session itself changes its copy of the run or its program counter. */
  lemma {:induction false} OthersKeepSession(c: Config, s: System, es: seq<Event>, sid: nat)
    requires sid in s.sessions
    ensures sid in Exec(c, s, Others(es, sid)).sessions
    ensures Exec(c, s, Others(es, sid)).sessions[sid] == s.sessions[sid]
    decreases es
  {
    if es != [] {
      if ActsOn(es[0], sid) {
        assert Others(es, sid) == Others(es[1..], sid);
        OthersKeepSession(c, s, es[1..], sid);
      } else {
        var fs := Others(es, sid);
        assert fs[0] == es[0] && fs[1..] == Others(es[1..], sid);
        OtherKeepsSession(c, s, es[0], sid);
        OthersKeepSession(c, Apply(c, s, es[0]), es[1..], sid);
      }
    }
  }

  lemma OtherKeepsSession(c: Config, s: System, e: Event, sid: nat)
    requires sid in s.sessions && !ActsOn(e, sid)
    ensures sid in Apply(c, s, e).sessions && Apply(c, s, e).sessions[sid] == s.sessions[sid]
  {
  }

  class Executor {
    const config: Config
    const cancelled: nat -> bool  // whether the context is cancelled at its n-th use
    var uses: nat
    var world: System
    ghost var start: System
    ghost var trace: seq<Event>

    /** The world is what the transition system reaches from `start` by `trace`. */
    ghost predicate Valid()
      reads this
    {
      Safe(config, world) && world == Exec(config, start, trace)
    }

    ghost predicate At(sid: nat, run: Run, pc: PC)
      reads this
    {
      sid in world.sessions && world.sessions[sid] == Session(run, pc)
    }

    /** The stored run is this one, but for the lease expiry and the creation time, which the store keeps. */
    ghost predicate Stored(run: Run)
      reads this
    {
      && run.id in world.runs
      && var stored := world.runs[run.id];
      && stored == run.(leaseUntil := stored.leaseUntil, createdAt := stored.createdAt)
    }

    /** The world before the last event. */
    ghost function Before(): System
      reads this
      requires trace != []
    {
      Exec(config, start, trace[..|trace| - 1])
    }

    /** The session ended because its context was cancelled or because the store rejected its write. */
    ghost predicate Cut(sid: nat)
      reads this
    {
      && trace != [] && sid in world.sessions && world.sessions[sid].pc.Done?
      && var last := trace[|trace| - 1];
      && ((last == Event.Abandon(sid) && uses > 0 && cancelled(uses - 1)) ||
          (last == Event.Save(sid) && !CanCommit(Before(), sid)))
    }

    constructor (config: Config, cancelled: nat -> bool, world: System)
      requires Safe(config, world)
      ensures Valid() && this.config == config && this.cancelled == cancelled
      ensures this.world == world == start && trace == []
    {
      this.config, this.cancelled, this.world, uses := config, cancelled, world, 0;
      start, trace := world, [];
    }

    ghost method Record(before: System, es: seq<Event>)
      requires before == Exec(config, start, trace) && Safe(config, before) && world == Exec(config, before, es)
      modifies this`trace
      ensures Valid() && trace == old(trace) + es
      ensures |es| == 1 ==> trace != [] && trace[|trace| - 1] == es[0] && Before() == before
    {
      ExecConcat(config, start, trace, es);
      SafeExec(config, before, es);
      trace := trace + es;
      assert |es| == 1 ==> trace[..|trace| - 1] == old(trace);
    }

    /** Anything the other actors may do. */
    method Interfere(sid: nat)
      requires Valid() && sid in world.sessions
      modifies this`world, this`trace
      ensures old(trace) <= trace
      ensures Valid() && sid in world.sessions && world.sessions[sid] == old(world.sessions[sid])
    {
      var es: seq<Event> := *;
      ghost var before := world;
      OthersKeepSession(config, world, es, sid);
      world := Exec(config, world, Others(es, sid));
      Record(before, Others(es, sid));
    }

    /** Uses the context; a cancelled one ends the session. */
    method CheckContext(sid: nat) returns (ok: bool)
      requires Valid() && Active(world, sid)
      modifies this`world, this`uses, this`trace
      ensures uses == old(uses) + 1
      ensures Valid() && ok == !cancelled(old(uses))
      ensures if ok then world == old(world) && trace == old(trace)
              else trace == old(trace) + [Event.Abandon(sid)] && Cut(sid)
    {
      ok := !cancelled(uses);
      uses := uses + 1;
      if !ok {
        ghost var before := world;
        world := Apply(config, world, Event.Abandon(sid));
        assert world == Exec(config, before, [Event.Abandon(sid)]);
        Record(before, [Event.Abandon(sid)]);
      }
    }

    /** The guarded update of the store: accepted while the stored run is running under the session's lease owner. */
    method Write(sid: nat, ghost prev: Run, ghost pc: PC, run: Run) returns (ok: bool)
      requires Valid() && At(sid, prev, pc) && PCValid(config, pc) && Saves(pc)
      requires run == Advance(config, prev, pc).0
      modifies this`world, this`trace
      ensures Valid() && trace == old(trace) + [Event.Save(sid)]
      ensures world == ApplySave(config, old(world), sid)
      ensures ok <==> old(CanCommit(world, sid))
      ensures if ok then At(sid, run, Advance(config, prev, pc).1) && Stored(run) else Cut(sid)
    {
      ghost var before := world;
      AdvanceKeepsRunning(config, prev, pc);
      var current := world.runs[run.id];
      var next := Advance(config, world.sessions[sid].run, world.sessions[sid].pc).1;
      if current.status != Running || current.leaseOwner != run.leaseOwner {
        world := world.(sessions := world.sessions[sid := Session(run, Done)]);
        ok := false;
      } else {
        var stored := run.(leaseUntil := current.leaseUntil, createdAt := current.createdAt);
        world := world.(runs := world.runs[run.id := stored],
                        sessions := world.sessions[sid := Session(run, next)]);
        ok := true;
      }
      assert world == ApplySave(config, before, sid);
      assert world == Exec(config, before, [Event.Save(sid)]);
      Record(before, [Event.Save(sid)]);
    }

    /** Executor.save: accepted exactly if the context is alive and the session can commit when the store is asked. */
    method Save(sid: nat, ghost prev: Run, ghost pc: PC, run: Run) returns (ok: bool)
      requires Valid() && At(sid, prev, pc) && PCValid(config, pc) && Saves(pc)
      requires run == Advance(config, prev, pc).0
      modifies this`world, this`uses, this`trace
      ensures Valid() && |old(trace)| < |trace| && old(trace) <= trace[..|trace| - 1] && uses == old(uses) + 1
      ensures trace[|trace| - 1] == if cancelled(old(uses)) then Event.Abandon(sid) else Event.Save(sid)
      ensures sid in Before().sessions && Before().sessions[sid] == Session(prev, pc)
      ensures ok <==> !cancelled(old(uses)) && CanCommit(Before(), sid)
      ensures if ok then At(sid, run, Advance(config, prev, pc).1) && Stored(run) else Cut(sid)
    {
      Interfere(sid);
      ghost var at := trace;
      ok := CheckContext(sid);
      if ok {
        ok := Write(sid, prev, pc, run);
      }
      assert trace[..|trace| - 1] == at;
    }

    /** Runs a step body: its outcome, the jittered delay and the clock are the environment's choice. */
    method RunBody(sid: nat, ghost run: Run, i: nat) returns (o: Outcome, delay: nat, now: Time)
      requires Valid() && i < |config.steps| && At(sid, run, InBody(i))
      modifies this`world, this`trace
      ensures old(trace) <= trace && Event.Body(sid, o, delay, now) in trace
      ensures Valid() && At(sid, run, PC.Returned(i, o, delay, now))
    {
      Interfere(sid);
      o, now := *, *;
      var d: nat := *;
      delay := d;
      ghost var before := world;
      world := ApplyBody(config, world, sid, o, delay, now);
      assert world == Exec(config, before, [Event.Body(sid, o, delay, now)]);
      Record(before, [Event.Body(sid, o, delay, now)]);
    }

    /**
     Why a step ends: its last body succeeded; it failed and may not be retried; its retry is put off and the run
     given back; or the session was cut off or the body preempted. All but the last store the run they return.
     */
    ghost predicate Ended(sid: nat, i: nat, last: Option<Tried>, run: Run, end: StepEnd)
      reads this
    {
      && sid in world.sessions
      && (!end.Halted? ==> last.Some? && Stored(run))
      && (last.Some? ==> Recorded(sid, i, last.value, run))
      && match end
         case Returned(result) =>
           && CheckedError(last.value.outcome).NoError? && result == last.value.outcome.result
           && PCValid(config, Settling(i, result)) && At(sid, run, Settling(i, result))
         case Gave(failed, err) =>
           && err == CheckedError(last.value.outcome) && err.StepError? && !err.preempted
           && !Retryable(err, last.value.run.stepRetries, config.Limit())
           && failed == FailedResult(last.value.outcome) && At(sid, run, Failing(i, failed, err.text))
         case Backoff =>
           && Retries(last.value) && run.leaseOwner != "" && last.value.delay > 0
           && run.status == Pending && run.nextAttemptAt == last.value.now + last.value.delay
           && world.sessions[sid].pc.Done?
         case Halted =>
           world.sessions[sid].pc.Done? && (Cut(sid) || (last.Some? && Preempts(last.value.outcome)))
    }

    ghost predicate Retries(last: Tried)
      reads this
    {
      var err := CheckedError(last.outcome);
      err.StepError? && Retryable(err, last.run.stepRetries, config.Limit())
    }

    /** The body ran, and the run is the one it was given with its outcome recorded. */
    ghost predicate Recorded(sid: nat, i: nat, last: Tried, run: Run)
      reads this
    {
      && i < |config.steps| && Event.Body(sid, last.outcome, last.delay, last.now) in trace
      && run == AfterBody(config, last.run, i, last.outcome, last.delay, last.now).0
    }

    /** The session goes on with one more attempt of its step. */
    ghost predicate Again(sid: nat, i: nat, last: Tried, run: Run)
      reads this
    {
      && At(sid, run, Attempting(i)) && Recorded(sid, i, last, run)
      && Retries(last) && last.run.stepRetries < run.stepRetries < config.Limit()
    }

    /** What follows a step body: its record is saved and the step ends, or one more attempt is made. */
    method AfterAttempt(sid: nat, i: nat, run0: Run, o: Outcome, delay: nat, now: Time)
      returns (run: Run, end: Option<StepEnd>)
      requires Valid() && i < |config.steps| && At(sid, run0, PC.Returned(i, o, delay, now))
      requires Event.Body(sid, o, delay, now) in trace
      modifies this`world, this`uses, this`trace
      ensures old(trace) <= trace && Valid()
      ensures end.None? ==> Again(sid, i, Tried(run0, o, delay, now), run)
      ensures end.Some? ==> Ended(sid, i, Some(Tried(run0, o, delay, now)), run, end.value)
    {
      if CheckedError(o).StepError? {
        run, end := AfterFailure(sid, i, run0, o, delay, now);
        return;
      }
      var name := config.steps[i];
      run := run0.(stepRecords := run0.stepRecords + [SuccessRecord(name, Attempts(run0, name), o.result)],
                   stepRetries := 0);
      var ok := Save(sid, run0, PC.Returned(i, o, delay, now), run);
      end := Some(if ok then StepEnd.Returned(o.result) else Halted);
    }

    method AfterFailure(sid: nat, i: nat, run0: Run, o: Outcome, delay: nat, now: Time)
      returns (run: Run, end: Option<StepEnd>)
      requires Valid() && i < |config.steps| && At(sid, run0, PC.Returned(i, o, delay, now))
      requires Event.Body(sid, o, delay, now) in trace && CheckedError(o).StepError?
      modifies this`world, this`uses, this`trace
      ensures old(trace) <= trace && Valid()
      ensures end.None? ==> Again(sid, i, Tried(run0, o, delay, now), run)
      ensures end.Some? ==> Ended(sid, i, Some(Tried(run0, o, delay, now)), run, end.value)
    {
      var err, failed := CheckedError(o), FailedResult(o);
      var record := StepRecord(config.steps[i], Failed, Attempts(run0, config.steps[i]), failed.refs);
      var retry := Retryable(err, run0.stepRetries, config.Limit());
      run := run0.(stepRecords := run0.stepRecords + [record],
                   stepRetries := if retry then run0.stepRetries + 1 else 0);
      var later := retry && run.leaseOwner != "" && delay > 0;
      if later {
        run := run.(status := Pending, nextAttemptAt := now + delay);
      }
      var ok := Save(sid, run0, PC.Returned(i, o, delay, now), run);
      if !ok || (!retry && err.preempted) {
        end := Some(Halted);
      } else if !retry {
        end := Some(Gave(failed, err));
      } else {
        end := if later then Some(Backoff) else None;
      }
    }

    /** One attempt: it is saved, the body runs, and its outcome is recorded; None asks for another one. */
    method Attempt(sid: nat, i: nat, run0: Run)
      returns (run: Run, end: Option<StepEnd>, delay: nat, ghost last: Option<Tried>)
      requires Valid() && i < |config.steps| && At(sid, run0, Attempting(i))
      modifies this`world, this`uses, this`trace
      ensures old(trace) <= trace && Valid()
      ensures last.Some? ==> last.value.run == Advance(config, run0, Attempting(i)).0
      ensures end.None? ==> last.Some? && last.value.delay == delay && Again(sid, i, last.value, run)
      ensures end.Some? ==> Ended(sid, i, last, run, end.value)
    {
      run := RecordAttempt(run0, config.steps[i]).(nextAttemptAt := ZERO_TIME);
      var ok := Save(sid, run0, Attempting(i), run);
      if !ok {
        return run, Some(Halted), 0, None;
      }
      var o, now;
      o, delay, now := RunBody(sid, run, i);
      last := Some(Tried(run, o, delay, now));
      run, end := AfterAttempt(sid, i, run, o, delay, now);
    }

    method RunStepWithRetry(sid: nat, i: nat, run0: Run) returns (run: Run, end: StepEnd, ghost last: Option<Tried>)
      requires Valid() && i < |config.steps| && At(sid, run0, Attempting(i))
      modifies this`world, this`uses, this`trace
      ensures old(trace) <= trace
      ensures Valid() && Ended(sid, i, last, run, end)
      ensures end.Returned? ==> run.completedSteps == run0.completedSteps
    {
      run := run0;
      while true
        invariant Valid() && old(trace) <= trace && At(sid, run, Attempting(i))
        invariant run.completedSteps == run0.completedSteps
        decreases config.Limit() - run.stepRetries
      {
        var ended, delay;
        run, ended, delay, last := Attempt(sid, i, run);
        if ended.Some? {
          return run, ended.value, last;
        }
        if delay > 0 {
          var waited := CheckContext(sid);
          if !waited {
            return run, Halted, last;
          }
        }
      }
    }

    /** A body of the session returned without an error, with this status. */
    ghost predicate Said(sid: nat, status: Status)
      reads this
    {
      exists e :: e in trace && e.Body? && e.sid == sid && e.outcome.err.NoError?
                  && e.outcome.result.status == Known(status)
    }

    /** The run has its final status because a body said so, or has succeeded because every step is completed. */
    ghost predicate EarnedBy(sid: nat, run: Run)
      reads this
    {
      Said(sid, run.status) || (run.status == Succeeded && forall n :: n in config.steps ==> n in run.completedSteps)
    }

    /** How the session's end and the stored run agree. */
    ghost predicate Agrees(sid: nat, run: Run, end: End)
      reads this
    {
      && sid in world.sessions && world.sessions[sid].pc.Done?
      && match end
         case Finished => IsTerminalOrWaiting(run.status) && Stored(run) && EarnedBy(sid, run)
         case Yielded => run.status == Pending && Stored(run)
         case StepFailed(err) =>
           err.StepError? && run.status == Failed && run.refs.error == err.text && (Stored(run) || Cut(sid))
         case Stopped => Cut(sid) || exists e :: e in trace && e.Body? && e.sid == sid && Preempts(e.outcome)
    }

    /** Applies a successful step's result and saves it. */
    method Settle(sid: nat, i: nat, run0: Run, result: StepResult) returns (run: Run, ok: bool)
      requires Valid() && PCValid(config, Settling(i, result)) && At(sid, run0, Settling(i, result))
      modifies this`world, this`uses, this`trace
      ensures old(trace) <= trace
      ensures Valid() && if ok then Stored(run) else Cut(sid)
      ensures ok ==> At(sid, run, if IsTerminalOrWaiting(run.status) then Done else AtStep(i + 1))
      ensures run.status == if result.status.Known? then result.status.status else Running
      ensures WorkflowOutcomes.Overlaid(run0.refs, result.refs, run.refs) && run0.completedSteps <= run.completedSteps
      ensures !IsFailedOrCancelled(run.status) ==> config.steps[i] in run.completedSteps
    {
      run := ApplyStepResult(run0, result);
      WorkflowOutcomes.ResultLaidOver(run0, result);
      if !IsFailedOrCancelled(run.status) {
        run := MarkCompleted(run, config.steps[i]);
      }
      ok := Save(sid, run0, Settling(i, result), run);
    }

    /** Fails the run after a step gave up, keeping the references the failed step returned. */
    method FailRun(sid: nat, i: nat, run0: Run, failed: StepResult, err: StepError) returns (run: Run)
      requires Valid() && err.StepError? && i < |config.steps| && At(sid, run0, Failing(i, failed, err.text))
      modifies this`world, this`uses, this`trace
      ensures old(trace) <= trace
      ensures Valid() && Agrees(sid, run, StepFailed(err))
    {
      run := ApplyStepResult(run0, failed);
      run := run.(status := Failed, refs := run.refs.(error := err.text));
      var _ := Save(sid, run0, Failing(i, failed, err.text), run);
    }

    /** One step of the loop: it is entered, run and settled; None means that the run goes on. */
    method RunStep(sid: nat, i: nat, ghost from: nat, run0: Run) returns (run: Run, end: Option<End>)
      requires Valid() && from <= i < |config.steps| && At(sid, run0, AtStep(from))
      requires NextStep(config.steps, run0.completedSteps, from) == i
      modifies this`world, this`uses, this`trace
      ensures old(trace) <= trace
      ensures Valid()
      ensures end.None? ==> At(sid, run, AtStep(i + 1)) && run0.completedSteps <= run.completedSteps
      ensures end.None? ==> config.steps[i] in run.completedSteps
      ensures end.Some? ==> Agrees(sid, run, end.value)
    {
      run := run0.(currentStep := config.steps[i]);
      var ok := Save(sid, run0, AtStep(from), run);
      if !ok {
        return run, Some(Stopped);
      }
      var step;
      ghost var last;
      run, step, last := RunStepWithRetry(sid, i, run);
      run, end := AfterStep(sid, i, run, step, last);
    }

    /** What runFrom does once a step has ended. */
    method AfterStep(sid: nat, i: nat, run0: Run, step: StepEnd, ghost last: Option<Tried>)
      returns (run: Run, end: Option<End>)
      requires Valid() && i < |config.steps| && Ended(sid, i, last, run0, step)
      modifies this`world, this`uses, this`trace
      ensures old(trace) <= trace && Valid()
      ensures end.None? ==>
                && step.Returned? && At(sid, run, AtStep(i + 1)) && config.steps[i] in run.completedSteps
                && run0.completedSteps <= run.completedSteps
      ensures end.Some? ==> Agrees(sid, run, end.value)
    {
      run := run0;
      match step {
        case Backoff => end := Some(Yielded);
        case Halted => end := Some(Stopped);
        case Gave(failed, err) =>
          run := FailRun(sid, i, run, failed, err);
          end := Some(StepFailed(err));
        case Returned(result) =>
          var ok;
          run, ok := Settle(sid, i, run, result);
          end := if !ok then Some(Stopped) else if IsTerminalOrWaiting(run.status) then Some(Finished) else None;
      }
    }

    /** Runs the remaining steps of a started session to its end. */
    method RunFrom(sid: nat, run0: Run) returns (run: Run, end: End)
      requires Valid() && At(sid, run0, AtStep(0))
      modifies this`world, this`uses, this`trace
      ensures old(trace) <= trace
      ensures Valid() && Agrees(sid, run, end)
    {
      run := run0;
      var i := 0;
      ghost var from := 0;
      while i < |config.steps|
        invariant Valid() && old(trace) <= trace
        invariant from <= i <= |config.steps| && At(sid, run, AtStep(from))
        invariant forall j :: 0 <= j < i ==> config.steps[j] in run.completedSteps
        invariant NextStep(config.steps, run.completedSteps, from) == NextStep(config.steps, run.completedSteps, i)
      {
        if config.steps[i] !in run.completedSteps {
          var ended;
          run, ended := RunStep(sid, i, from, run);
          if ended.Some? {
            return run, ended.value;
          }
          from := i + 1;
        }
        i := i + 1;
      }
      ghost var before := run;
      run := run.(status := Succeeded);
      var ok := Save(sid, before, AtStep(from), run);
      return run, if ok then Finished else Stopped;
    }

    /** Executor.Run on a stored run: only a pending run held by the caller's lease owner starts. */
    method Run(sid: nat, copy: Run) returns (run: Run, end: Option<End>)
      requires Valid() && sid !in world.sessions && copy.id in world.runs
      modifies this`world, this`uses, this`trace
      ensures old(trace) <= trace
      ensures Valid()
      ensures end.None? <==>
              copy.status != Pending || StartUpdate(old(world).runs[copy.id], copy).None?
      ensures end.None? ==> world.runs == old(world).runs && world.sessions == old(world).sessions
      ensures end.Some? ==> old(trace) + [Event.Start(sid, copy)] <= trace
      ensures end.Some? ==> Agrees(sid, run, end.value)
    {
      if copy.status != Pending {
        return copy, None;
      }
      var current := world.runs[copy.id];
      var update := StartUpdate(current, copy);
      ghost var before := world;
      world := ApplyStart(world, sid, copy);
      assert world == Exec(config, before, [Event.Start(sid, copy)]);
      Record(before, [Event.Start(sid, copy)]);
      if update.None? {
        return current, None;
      }
      var ended;
      run, ended := RunFrom(sid, update.value);
      return run, Some(ended);
    }

    /** Continue and Approve: only a run in waiting_approval resumes. */
    method ResumeWaiting(sid: nat, id: string, approval: Refs) returns (run: Run, end: Option<End>)
      requires Valid() && sid !in world.sessions && id in world.runs
      modifies this`world, this`uses, this`trace
      ensures old(trace) <= trace
      ensures Valid()
      ensures end.None? <==> old(world).runs[id].status != WaitingApproval
      ensures end.None? ==> world == old(world)
      ensures end.Some? ==> old(trace) + [Event.Resume(sid, id, approval)] <= trace
      ensures end.Some? ==> Agrees(sid, run, end.value)
    {
      var update := ResumeUpdate(world.runs[id], approval);
      if update.None? {
        return world.runs[id], None;
      }
      ghost var before := world;
      world := ApplyResume(world, sid, id, approval);
      assert world == Exec(config, before, [Event.Resume(sid, id, approval)]);
      Record(before, [Event.Resume(sid, id, approval)]);
      var ended;
      run, ended := RunFrom(sid, update.value);
      return run, Some(ended);
    }
  }
}
