/**
 What extraction jobs go through: what each accepted row update stores, and why a job is in its status, over every
 interleaving of workers.
 */
module ExtractionJobs {
  import opened Wrappers
  import opened Text
  import opened MemoryTypes
  import opened Extraction

  // ---- row updates --------------------------------------------------------------------------------

  /** A job that a worker may lease: attempts are left, and it waits or its lease is over. */
  predicate Free(j: Job, max: nat, now: Time) {
    && j.attempts < max
    && (j.status == JobPending || (j.status == JobLeased && j.leaseUntil.Some? && now >= j.leaseUntil.value))
  }

  /** Its last lease is over and no attempts are left. */
  predicate Exhausted(j: Job, max: nat, now: Time) {
    j.status == JobLeased && j.leaseUntil.Some? && now >= j.leaseUntil.value && j.attempts >= max
  }

  /** Everything about what to extract is gone and nobody holds the job. */
  predicate Emptied(j: Job) {
    j.source == Source("", "", "") && j.sourceAgentID == "" && j.leaseOwner == "" && j.leaseUntil == None
  }

  /**
   A claim fails exactly the jobs whose last lease is over, and leases the picked job for one more attempt if and only
   if it is free. No other row changes, and an invalid claim changes nothing.
   */
  lemma ClaimStores(max: nat, q: Queue, worker: string, lease: int, now: Time, pick: string, id: string)
    requires id in q.jobs
    ensures var j := q.jobs[id];
            var q' := Extraction.Apply(max, q, Claim(worker, lease, now, pick));
            && q'.jobs.Keys == q.jobs.Keys && q'.commits == q.commits
            && var j' := q'.jobs[id];
            if !ValidClaim(worker, lease, now) then j' == j
            else if Exhausted(j, max, now) then
              && Emptied(j') && j'.status == JobFailed && j'.failureCode == "lease_exhausted" && j'.updatedAt == now
              && j' == j.(status := j'.status, failureCode := j'.failureCode, updatedAt := now, source := j'.source,
                          sourceAgentID := "", leaseOwner := "", leaseUntil := None)
            else if id == pick && Free(j, max, now) then
              j' == j.(status := JobLeased, attempts := j.attempts + 1, leaseOwner := worker,
                       leaseUntil := Some(now + lease), updatedAt := now)
            else j' == j
  {
  }

  /** The caller holds this attempt of the job, under a lease that still runs. */
  predicate IsHolder(j: Job, worker: string, attempt: int, now: Time) {
    j.status == JobLeased && j.leaseOwner == worker && j.attempts == attempt
    && j.leaseUntil.Some? && now < j.leaseUntil.value
  }

  /** Completing is accepted exactly from the holder; the job is then completed, emptied and final. */
  lemma CompleteStores(max: nat, q: Queue, id: string, worker: string, attempt: int, now: Time)
    requires id in q.jobs
    ensures var j, q' := q.jobs[id], Extraction.Apply(max, q, Complete(id, worker, attempt, now));
            if IsHolder(j, worker, attempt, now) then
              && q'.jobs == q.jobs[id := q'.jobs[id]] && q'.commits == q.commits + multiset{(id, j.attempts)}
              && var j' := q'.jobs[id];
              && j'.status == JobCompleted && Emptied(j')
              && j' == j.(status := JobCompleted, updatedAt := now, source := j'.source, sourceAgentID := "",
                          leaseOwner := "", leaseUntil := None)
            else q' == q
  {
  }

  /** Failing is accepted exactly from the holder; the job waits for another attempt, or has failed after its last. */
  lemma FailStores(max: nat, q: Queue, id: string, worker: string, attempt: int, code: string, now: Time)
    requires id in q.jobs
    ensures var j, q' := q.jobs[id], Extraction.Apply(max, q, Fail(id, worker, attempt, code, now));
            if IsHolder(j, worker, attempt, now) then
              && q'.jobs == q.jobs[id := q'.jobs[id]] && q'.commits == q.commits + multiset{(id, j.attempts)}
              && var j' := q'.jobs[id];
              && j'.failureCode == code && j'.attempts == j.attempts
              && (if j.attempts < max then
                    && j'.status == JobPending
                    && j' == j.(status := JobPending, failureCode := code, leaseOwner := "", leaseUntil := None,
                                updatedAt := now)
                  else j'.status == JobFailed && Emptied(j'))
            else q' == q
  {
  }

  // ---- why a job is in its status -----------------------------------------------------------------

  /** The job is the one that was enqueued; until it ends it still says what to extract. */
  ghost predicate Enqueued(h: seq<Event>, j: Job) {
    exists was :: Enqueue(was) in h && was.id == j.id && was.scope == j.scope && was.extractorID == j.extractorID
                  && (!IsFinal(j) ==> j.source == was.source && j.sourceAgentID == was.sourceAgentID)
  }

  ghost predicate CompletedBy(h: seq<Event>, j: Job) {
    exists worker, now :: Complete(j.id, worker, j.attempts, now) in h
  }

  ghost predicate FailedBy(h: seq<Event>, j: Job) {
    exists worker, now :: Fail(j.id, worker, j.attempts, j.failureCode, now) in h
  }

  /** The status of a job and its reason among the events. */
  ghost predicate JobExplained(max: nat, h: seq<Event>, j: Job) {
    && Enqueued(h, j)
    && match j.status
       case JobPending => j.leaseOwner == "" && j.leaseUntil == None && (j.attempts == 0 || j.attempts < max)
       case JobLeased => j.leaseOwner != "" && j.leaseUntil.Some? && 1 <= j.attempts <= max
       case JobCompleted => Emptied(j) && CompletedBy(h, j)
       case JobFailed =>
         Emptied(j) && j.attempts >= max && (j.failureCode == "lease_exhausted" || FailedBy(h, j))
  }

  ghost predicate AllExplained(max: nat, h: seq<Event>, q: Queue) {
    forall id :: id in q.jobs ==> q.jobs[id].id == id && JobExplained(max, h, q.jobs[id])
  }

  lemma SameEnqueued(h: seq<Event>, j: Job, j': Job)
    requires Enqueued(h, j) && j'.id == j.id && j'.scope == j.scope && j'.extractorID == j.extractorID
    requires IsFinal(j') || (!IsFinal(j) && j'.source == j.source && j'.sourceAgentID == j.sourceAgentID)
    ensures Enqueued(h, j')
  {
    var was :| Enqueue(was) in h && was.id == j.id && was.scope == j.scope && was.extractorID == j.extractorID
               && (!IsFinal(j) ==> j.source == was.source && j.sourceAgentID == was.sourceAgentID);
  }

  lemma ClaimExplained(max: nat, h: seq<Event>, q: Queue, worker: string, lease: int, now: Time, pick: string)
    requires AllExplained(max, h, q)
    ensures AllExplained(max, h, Extraction.Apply(max, q, Claim(worker, lease, now, pick)))
  {
    var q' := Extraction.Apply(max, q, Claim(worker, lease, now, pick));
    forall id | id in q'.jobs ensures q'.jobs[id].id == id && JobExplained(max, h, q'.jobs[id]) {
      ClaimStores(max, q, worker, lease, now, pick, id);
      if q'.jobs[id] != q.jobs[id] {
        SameEnqueued(h, q.jobs[id], q'.jobs[id]);
      }
    }
  }

  lemma CommitExplained(max: nat, h: seq<Event>, q: Queue, e: Event)
    requires AllExplained(max, h, q) && e in h && (e.Complete? || e.Fail?)
    ensures AllExplained(max, h, Extraction.Apply(max, q, e))
  {
    var q' := Extraction.Apply(max, q, e);
    if e.id in q.jobs {
      var j, j' := q.jobs[e.id], q'.jobs[e.id];
      if e.Complete? {
        CompleteStores(max, q, e.id, e.worker, e.attempt, e.now);
      } else {
        FailStores(max, q, e.id, e.worker, e.attempt, e.code, e.now);
      }
      if IsHolder(j, e.worker, e.attempt, e.now) {
        SameEnqueued(h, j, j');
        if e.Complete? {
          assert Complete(j'.id, e.worker, j'.attempts, e.now) in h;
        } else {
          assert Fail(j'.id, e.worker, j'.attempts, j'.failureCode, e.now) in h;
        }
      }
    }
  }

  lemma {:induction false} ExplainedExec(max: nat, h: seq<Event>, q: Queue, es: seq<Event>)
    requires AllExplained(max, h, q) && forall e :: e in es ==> e in h
    ensures AllExplained(max, h, Extraction.Exec(max, q, es))
    decreases es
  {
    if es != [] {
      assert es[0] in es;
      match es[0] {
        case Claim(worker, lease, now, pick) => ClaimExplained(max, h, q, worker, lease, now, pick);
        case Complete(_, _, _, _) => CommitExplained(max, h, q, es[0]);
        case Fail(_, _, _, _, _) => CommitExplained(max, h, q, es[0]);
        case Enqueue(job) => assert FreshJob(job) ==> Enqueued(h, job);
      }
      ExplainedExec(max, h, Extraction.Apply(max, q, es[0]), es[1..]);
    }
  }

  /**
   Over every interleaving: a job is completed only by a completion of its last attempt, it has failed only when its
   attempts were used up, by a failure of the last or by losing its lease, and it says what to extract until it ends
   and nothing of it afterwards.
   */
  lemma JobStatusMeans(max: nat, es: seq<Event>, id: string)
    requires id in Extraction.Exec(max, EMPTY_QUEUE, es).jobs
    ensures JobExplained(max, es, Extraction.Exec(max, EMPTY_QUEUE, es).jobs[id])
  {
    ExplainedExec(max, es, EMPTY_QUEUE, es);
  }
}
