/**
 Leases, retries and cancellation over whole behaviours: while a lease runs nobody else gets its run, a run that is
 waiting to retry is not handed out before it is due, and a cancelled or recovered run stays so and is never written.
 */
module WorkflowLeases {
  import opened WorkflowRun
  import opened WorkflowProtocol

  // ---- claims -----------------------------------------------------------------------------------

  /** A run that a worker may take: waiting in the queue, due, and with no lease that still runs. */
  predicate Takeable(r: Run, now: Time) {
    r.status == Pending && now >= r.nextAttemptAt && (r.leaseOwner == "" || now >= r.leaseUntil)
  }

  /** A claim hands out a run if and only if it may be taken, and then only its lease changes. */
  lemma ClaimHandsOut(c: Config, s: System, id: string, worker: string, lease: int, now: Time)
    requires id in s.runs && worker != "" && lease > 0
    ensures var s' := Apply(c, s, Claim(id, worker, lease, now));
            if Takeable(s.runs[id], now) then
              var taken := s.runs[id].(leaseOwner := worker, leaseUntil := now + lease);
              s' == s.(runs := s.runs[id := taken], claims := s.claims[(id, worker) := taken])
            else s' == s
  {
    var s' := Apply(c, s, Claim(id, worker, lease, now));
    assert Takeable(s.runs[id], now) == Claimable(s.runs[id], now);
    forall k | k in s.runs && k != id ensures s'.runs[k] == s.runs[k] {
    }
    if !Takeable(s.runs[id], now) {
      assert s'.runs == s.runs;
    } else {
      assert s'.runs == s.runs[id := ClaimUpdate(s.runs[id], worker, lease, now)];
    }
  }

  /** The worker holds the run, up to `until` at least. */
  predicate Held(s: System, id: string, worker: string, until: Time) {
    id in s.runs && s.runs[id].leaseOwner == worker && s.runs[id].leaseUntil >= until
  }

  /** The holder does not give the lease up or shorten it, and nobody's clock says that it is over. */
  predicate Respects(e: Event, id: string, worker: string, until: Time) {
    match e
    case Release(id', worker') => id' != id || worker' != worker
    case Extend(id', worker', lease, now) => id' == id && worker' == worker ==> now + lease >= until
    case Claim(id', _, _, now) => id' == id ==> now < until
    case Recover(now, _) => now < until
    case _ => true
  }

  lemma HeldSave(c: Config, s: System, sid: nat, id: string, worker: string, until: Time)
    requires Safe(c, s) && Held(s, id, worker, until)
    ensures Held(ApplySave(c, s, sid), id, worker, until)
  {
    if Active(s, sid) && Saves(s.sessions[sid].pc) {
      assert SessionSafe(c, s, sid);
      AdvanceKeepsRunning(c, s.sessions[sid].run, s.sessions[sid].pc);
    }
  }

  lemma HeldStep(c: Config, s: System, e: Event, id: string, worker: string, until: Time)
    requires Safe(c, s) && Held(s, id, worker, until) && worker != "" && Respects(e, id, worker, until)
    ensures Held(Apply(c, s, e), id, worker, until)
  {
    if e.Save? {
      HeldSave(c, s, e.sid, id, worker, until);
    }
  }

  lemma {:induction false} HeldExec(c: Config, s: System, es: seq<Event>, id: string, worker: string, until: Time)
    requires Safe(c, s) && Held(s, id, worker, until) && worker != ""
    requires forall e :: e in es ==> Respects(e, id, worker, until)
    ensures Held(Exec(c, s, es), id, worker, until)
    decreases es
  {
    if es != [] {
      assert es[0] in es;
      HeldStep(c, s, es[0], id, worker, until);
      SafeStep(c, s, es[0]);
      HeldExec(c, Apply(c, s, es[0]), es[1..], id, worker, until);
    }
  }

  /**
   From a successful claim on, as long as its worker neither releases nor shortens the lease and no clock has passed
   its end: the worker holds the run, no claim of it succeeds and no recovery touches it, whatever else happens.
   */
  lemma LeaseExcludes(c: Config, s: System, id: string, worker: string, lease: int, now: Time, es: seq<Event>,
                      rival: string, length: int, later: Time, reason: string)
    requires Safe(c, s) && id in s.runs && worker != "" && lease > 0 && Takeable(s.runs[id], now)
    requires forall e :: e in es ==> Respects(e, id, worker, now + lease)
    requires later < now + lease
    ensures var t := Exec(c, Apply(c, s, Claim(id, worker, lease, now)), es);
            && Held(t, id, worker, now + lease)
            && Apply(c, t, Claim(id, rival, length, later)) == t
            && Apply(c, t, Recover(later, reason)).runs[id] == t.runs[id]
  {
    var claimed := Apply(c, s, Claim(id, worker, lease, now));
    ClaimHandsOut(c, s, id, worker, lease, now);
    SafeStep(c, s, Claim(id, worker, lease, now));
    HeldExec(c, claimed, es, id, worker, now + lease);
    var t := Exec(c, claimed, es);
    if rival != "" && length > 0 {
      ClaimHandsOut(c, t, id, rival, length, later);
    } else {
      assert Apply(c, t, Claim(id, rival, length, later)).runs == t.runs;
    }
  }

  // ---- retries ----------------------------------------------------------------------------------

  /** Given back for a retry at `due`, and not started since. */
  predicate Parked(s: System, id: string, due: Time) {
    id in s.runs && s.runs[id].nextAttemptAt == due && (s.runs[id].status == Pending || IsTerminal(s.runs[id].status))
  }

  lemma ParkedStep(c: Config, s: System, e: Event, id: string, due: Time)
    requires Safe(c, s) && Parked(s, id, due) && !(e.Start? && e.copy.id == id)
    ensures Parked(Apply(c, s, e), id, due)
  {
    match e
    case Save(sid) => SaveTouches(c, s, sid, id);
    case Start(_, _) => OthersKeepRun(c, s, e, id);
    case Resume(_, _, _) => OthersKeepRun(c, s, e, id);
    case Body(_, _, _, _) => OthersKeepRun(c, s, e, id);
    case Abandon(_) => OthersKeepRun(c, s, e, id);
    case Enqueue(_) => OthersKeepRun(c, s, e, id);
    case _ => ParkedStore(e, id, s.runs[id]);
  }

  lemma OthersKeepRun(c: Config, s: System, e: Event, id: string)
    requires id in s.runs && (e.Body? || e.Abandon? || e.Enqueue? || e.Start? || e.Resume?)
    requires !(e.Start? && e.copy.id == id) && s.runs[id].status != WaitingApproval
    ensures id in Apply(c, s, e).runs && Apply(c, s, e).runs[id] == s.runs[id]
  {
  }

  lemma ParkedStore(e: Event, id: string, r: Run)
    requires r.status == Pending || IsTerminal(r.status)
    ensures var r' := RunAfter(e, id, r);
            r'.nextAttemptAt == r.nextAttemptAt && (r'.status == Pending || IsTerminal(r'.status))
  {
  }

  lemma {:induction false} ParkedExec(c: Config, s: System, es: seq<Event>, id: string, due: Time)
    requires Safe(c, s) && Parked(s, id, due) && forall e :: e in es ==> !(e.Start? && e.copy.id == id)
    ensures Parked(Exec(c, s, es), id, due)
    decreases es
  {
    if es != [] {
      assert es[0] in es;
      ParkedStep(c, s, es[0], id, due);
      SafeStep(c, s, es[0]);
      ParkedExec(c, Apply(c, s, es[0]), es[1..], id, due);
    }
  }

  /** A run given back for a retry is handed out by no claim made before the retry is due. */
  lemma RetryWaits(c: Config, s: System, id: string, due: Time, es: seq<Event>, worker: string, lease: int, now: Time)
    requires Safe(c, s) && id in s.runs && s.runs[id].status == Pending && s.runs[id].nextAttemptAt == due
    requires now < due && worker != "" && lease > 0
    requires forall e :: e in es ==> !(e.Start? && e.copy.id == id)
    ensures var t := Exec(c, s, es); Apply(c, t, Claim(id, worker, lease, now)) == t
  {
    ParkedExec(c, s, es, id, due);
    ClaimHandsOut(c, Exec(c, s, es), id, worker, lease, now);
  }

  // ---- cancellation and recovery ----------------------------------------------------------------

  /** The run has ended with this status and error, and no session of it can write any more. */
  ghost predicate Closed(s: System, id: string, status: Status, reason: string) {
    && id in s.runs && s.runs[id].status == status && s.runs[id].refs.error == reason
    && forall sid :: sid in s.sessions && s.sessions[sid].run.id == id ==> !CanCommit(s, sid)
  }

  lemma ClosedForever(c: Config, s: System, es: seq<Event>, id: string, status: Status, reason: string)
    requires Safe(c, s) && id in s.runs && s.runs[id].status == status && s.runs[id].refs.error == reason
    requires IsTerminal(status)
    ensures Closed(Exec(c, s, es), id, status, reason)
  {
    TerminalForever(c, s, es, id);
  }

  /** Cancelling a run that has not ended closes it for good; a run that has ended stays as it is. */
  lemma CancelWins(c: Config, s: System, id: string, reason: string, es: seq<Event>)
    requires Safe(c, s) && id in s.runs
    ensures var t := Apply(c, s, Cancel(id, reason));
            if s.runs[id].status in {Succeeded, Failed, Cancelled} then t == s
            else
              && t == s.(runs := s.runs[id := t.runs[id]])
              && t.runs[id] == s.runs[id].(status := Cancelled, refs := s.runs[id].refs.(error := reason))
              && Closed(Exec(c, t, es), id, Cancelled, reason)
  {
    var t := Apply(c, s, Cancel(id, reason));
    forall k | k in s.runs && k != id ensures t.runs[k] == s.runs[k] {
    }
    assert t.runs == s.runs[id := t.runs[id]];
    SafeStep(c, s, Cancel(id, reason));
    if s.runs[id].status !in {Succeeded, Failed, Cancelled} {
      ClosedForever(c, t, es, id, Cancelled, reason);
    }
  }

  /** Recovery closes exactly the running runs whose lease is over, for good, and takes their lease. */
  lemma RecoveryCloses(c: Config, s: System, id: string, now: Time, reason: string, es: seq<Event>)
    requires Safe(c, s) && id in s.runs
    ensures var t := Apply(c, s, Recover(now, reason));
            if s.runs[id].status == Running && s.runs[id].leaseOwner != "" && s.runs[id].leaseUntil <= now then
              && t.runs[id] == s.runs[id].(status := Failed, refs := s.runs[id].refs.(error := reason),
                                           leaseOwner := "", leaseUntil := ZERO_TIME)
              && Closed(Exec(c, t, es), id, Failed, reason)
            else t.runs[id] == s.runs[id]
  {
    var t := Apply(c, s, Recover(now, reason));
    SafeStep(c, s, Recover(now, reason));
    if s.runs[id].status == Running && s.runs[id].leaseOwner != "" && s.runs[id].leaseUntil <= now {
      ClosedForever(c, t, es, id, Failed, reason);
    }
  }

  // ---- starting and resuming --------------------------------------------------------------------

  /**
   A start is accepted if and only if the run is waiting in the queue and its lease is the caller's; the session then
   works on the caller's copy, running and due at once, under the stored lease.
   */
  lemma StartStores(c: Config, s: System, sid: nat, copy: Run)
    requires sid !in s.sessions && copy.id in s.runs && copy.status == Pending
    ensures var t, current := Apply(c, s, Start(sid, copy)), s.runs[copy.id];
            if current.status == Pending && current.leaseOwner == copy.leaseOwner then
              && sid in t.sessions && t.sessions[sid].pc == AtStep(0)
              && t.sessions[sid].run == copy.(status := Running, nextAttemptAt := ZERO_TIME,
                                              leaseUntil := current.leaseUntil, createdAt := current.createdAt)
              && t.runs == s.runs[copy.id := t.sessions[sid].run]
              && t.sessions == s.sessions[sid := t.sessions[sid]]
            else t.runs == s.runs && t.sessions == s.sessions
  {
  }
}
