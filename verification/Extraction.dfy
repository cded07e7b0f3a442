/**
 The extraction-job queue and its workers. A job's attempt number fences stale holders; what
 workers write are candidate memories whose IDs depend only on the job and the draft's
 content, so that retries never add a second copy and never touch an existing memory.
 */
module Extraction {
  import opened Wrappers
  import opened Text
  import opened MemoryTypes
  import opened MemoryModel

  datatype JobStatus = JobPending | JobLeased | JobCompleted | JobFailed

  datatype Job = Job(id: string, scope: Scope, source: Source, sourceAgentID: string, extractorID: string,
                     status: JobStatus, attempts: nat, leaseOwner: string, leaseUntil: Option<Time>,
                     failureCode: string, createdAt: Time, updatedAt: Time)

  datatype Queue = Queue(
    jobs: map<string, Job>,
    commits: multiset<(string, nat)>)  // (job, attempt) of every accepted complete or fail

  datatype Event =
    | Enqueue(job: Job)
    | Claim(worker: string, lease: int, now: Time, pick: string)  // pick: the row the database chose
    | Complete(id: string, worker: string, attempt: int, now: Time)
    | Fail(id: string, worker: string, attempt: int, code: string, now: Time)

  const NO_SOURCE := Source("", "", "")

  // ---- row updates --------------------------------------------------------------------------------------

  predicate LeaseOver(j: Job, now: Time) {
    j.status == JobLeased && j.leaseUntil.Some? && j.leaseUntil.value <= now
  }

  function Cleared(j: Job, status: JobStatus, now: Time): Job {
    j.(status := status, source := NO_SOURCE, sourceAgentID := "", leaseOwner := "", leaseUntil := None,
       updatedAt := now)
  }

  /** A lease that ran out on its last attempt ends the job. */
  function Terminalized(j: Job, max: nat, now: Time): Job {
    if LeaseOver(j, now) && j.attempts >= max then Cleared(j, JobFailed, now).(failureCode := "lease_exhausted") else j
  }

  predicate Claimable(j: Job, max: nat, now: Time) {
    j.attempts < max && (j.status == JobPending || LeaseOver(j, now))
  }

  function Leased(j: Job, worker: string, lease: int, now: Time): Job {
    j.(status := JobLeased, attempts := j.attempts + 1, leaseOwner := worker, leaseUntil := Some(now + lease),
       updatedAt := now)
  }

  /** The caller holds this very attempt, under an unexpired lease. */
  predicate Holds(j: Job, worker: string, attempt: int, now: Time) {
    && j.leaseOwner == worker && j.attempts == attempt && j.status == JobLeased
    && j.leaseUntil.Some? && j.leaseUntil.value > now
  }

  function Completed(j: Job, now: Time): Job {
    Cleared(j, JobCompleted, now)
  }

  function FailedOnce(j: Job, code: string, max: nat, now: Time): Job {
    if j.attempts >= max then Cleared(j, JobFailed, now).(failureCode := code)
    else j.(status := JobPending, failureCode := code, leaseOwner := "", leaseUntil := None, updatedAt := now)
  }

  predicate FreshJob(j: Job) {
    j.status == JobPending && j.attempts == 0 && j.leaseOwner == "" && j.leaseUntil.None? && j.id != ""
  }

  predicate ValidClaim(worker: string, lease: int, now: Time) {
    worker != "" && worker == Trim(worker) && lease > 0 && now != ZERO_TIME
  }

  function ApplyClaim(max: nat, q: Queue, worker: string, lease: int, now: Time, pick: string): Queue {
    if !ValidClaim(worker, lease, now) then q
    else
      var swept := map id | id in q.jobs :: Terminalized(q.jobs[id], max, now);
      if pick in swept && Claimable(swept[pick], max, now)
      then q.(jobs := swept[pick := Leased(swept[pick], worker, lease, now)])
      else q.(jobs := swept)
  }

  function Apply(max: nat, q: Queue, e: Event): Queue {
    match e
    case Enqueue(job) => if job.id in q.jobs || !FreshJob(job) then q else q.(jobs := q.jobs[job.id := job])
    case Claim(worker, lease, now, pick) => ApplyClaim(max, q, worker, lease, now, pick)
    case Complete(id, worker, attempt, now) =>
      if id in q.jobs && Holds(q.jobs[id], worker, attempt, now)
      then Queue(q.jobs[id := Completed(q.jobs[id], now)], q.commits + multiset{(id, q.jobs[id].attempts)})
      else q
    case Fail(id, worker, attempt, code, now) =>
      if id in q.jobs && Holds(q.jobs[id], worker, attempt, now)
      then Queue(q.jobs[id := FailedOnce(q.jobs[id], code, max, now)], q.commits + multiset{(id, q.jobs[id].attempts)})
      else q
  }

  function Exec(max: nat, q: Queue, es: seq<Event>): Queue
    decreases es
  {
    if es == [] then q else Exec(max, Apply(max, q, es[0]), es[1..])
  }

  const EMPTY_QUEUE := Queue(map[], multiset{})

  // ---- fencing --------------------------------------------------------------------------------------------

  predicate IsFinal(j: Job) {
    j.status == JobCompleted || j.status == JobFailed
  }

  /** Attempts never fall or pass the limit, and a completed or failed job is never touched again. */
  predicate JobEvolves(max: nat, j: Job, j': Job) {
    && j'.id == j.id && j.attempts <= j'.attempts
    && (j.attempts <= max ==> j'.attempts <= max)
    && (IsFinal(j) ==> j' == j)
  }

  lemma JobStep(max: nat, q: Queue, e: Event, id: string)
    requires id in q.jobs
    ensures id in Apply(max, q, e).jobs && JobEvolves(max, q.jobs[id], Apply(max, q, e).jobs[id])
  {
  }

  lemma {:induction false} JobExec(max: nat, q: Queue, es: seq<Event>, id: string)
    requires id in q.jobs
    ensures id in Exec(max, q, es).jobs && JobEvolves(max, q.jobs[id], Exec(max, q, es).jobs[id])
    decreases es
  {
    if es != [] {
      JobStep(max, q, es[0], id);
      JobExec(max, Apply(max, q, es[0]), es[1..], id);
    }
  }

  /** Every commit belongs to an attempt the job has made; the current attempt has none while it is leased. */
  predicate CommitOk(q: Queue, c: (string, nat)) {
    && q.commits[c] <= 1
    && (c in q.commits ==> c.0 in q.jobs && c.1 <= q.jobs[c.0].attempts &&
                           (c.1 == q.jobs[c.0].attempts ==> q.jobs[c.0].status != JobLeased))
  }

  predicate Fenced(max: nat, q: Queue) {
    && (forall id :: id in q.jobs ==> q.jobs[id].id == id && q.jobs[id].attempts <= max)
    && (forall c :: c in q.commits ==> CommitOk(q, c))
  }

  lemma CommitStep(max: nat, q: Queue, e: Event, c: (string, nat))
    requires Fenced(max, q) && c in Apply(max, q, e).commits
    ensures CommitOk(Apply(max, q, e), c)
  {
    if c in q.commits {
      assert CommitOk(q, c);
    }
  }

  lemma FencedStep(max: nat, q: Queue, e: Event)
    requires Fenced(max, q)
    ensures Fenced(max, Apply(max, q, e))
  {
    var q' := Apply(max, q, e);
    forall id | id in q'.jobs
      ensures q'.jobs[id].id == id && q'.jobs[id].attempts <= max
    {
      if id in q.jobs { JobStep(max, q, e, id); }
    }
    forall c | c in q'.commits
      ensures CommitOk(q', c)
    {
      CommitStep(max, q, e, c);
    }
  }

  lemma {:induction false} FencedExec(max: nat, q: Queue, es: seq<Event>)
    requires Fenced(max, q)
    ensures Fenced(max, Exec(max, q, es))
    decreases es
  {
    if es != [] {
      FencedStep(max, q, es[0]);
      FencedExec(max, Apply(max, q, es[0]), es[1..]);
    }
  }

  /** In every interleaving of workers at most one complete or fail commits per attempt, within the attempt limit. */
  lemma OneCommitPerAttempt(max: nat, es: seq<Event>, id: string, attempt: nat)
    ensures var q := Exec(max, EMPTY_QUEUE, es);
            && q.commits[(id, attempt)] <= 1
            && (id in q.jobs ==> q.jobs[id].attempts <= max)
  {
    FencedExec(max, EMPTY_QUEUE, es);
    var q := Exec(max, EMPTY_QUEUE, es);
    if (id, attempt) in q.commits {
      assert CommitOk(q, (id, attempt));
    }
  }

  // ---- candidates -----------------------------------------------------------------------------------------

  datatype Draft = Draft(kind: Kind, key: string, content: string, validFrom: Time, validUntil: Time, importance: int,
                         confidence: real)

  function KindText(k: Kind): string {
    match k
    case Fact => "fact"
    case Decision => "decision"
    case Constraint => "constraint"
    case Lesson => "lesson"
    case OtherKind(text) => text
  }

  const NUL := '\0'

  function IdentityText(d: Draft): string {
    KindText(d.kind) + [NUL] + (d.key + [NUL] + d.content)
  }

  /** UUIDv5 over a namespace and a name. */
  type Uuid = (string, string) -> string

  function CandidateID(uuid: Uuid, jobID: string, d: Draft): string {
    uuid(jobID, IdentityText(d))
  }

  function CandidateRequest(uuid: Uuid, j: Job, d: Draft, now: Time): CreateRequest {
    var id := CandidateID(uuid, j.id, d);
    CreateRequest(id, j.scope, d.kind, d.key, Candidate, d.content, d.validFrom, d.validUntil, d.importance,
                  d.confidence,
                  j.sourceAgentID, "extractor:" + j.extractorID, "model-derived candidate", "extraction:" + id,
                  [j.source], now)
  }

  predicate ValidDraft(d: Draft, limits: Limits) {
    && !d.kind.OtherKind? && ValidKey(d.key, limits.maxKeyRunes) && ValidContent(d.content, limits.maxContentRunes)
    && ValidRange(d.validFrom, d.validUntil) && ValidScores(d.importance, d.confidence)
  }

  lemma KindTextPlain(k: Kind)
    requires !k.OtherKind?
    ensures NUL !in KindText(k)
  {
  }

  lemma KindTextInjective(k: Kind, l: Kind)
    requires !k.OtherKind? && !l.OtherKind? && KindText(k) == KindText(l)
    ensures k == l
  {
    assert KindText(k)[0] == KindText(l)[0];
  }

  lemma KeyPlain(key: string, max: int)
    requires ValidKey(key, max)
    ensures NUL !in key
  {
    assert ControlRune(NUL);
  }

  /** Within a job, two valid drafts get the same candidate ID only if they say the same. */
  lemma CandidateIDInjective(uuid: Uuid, jobID: string, d: Draft, e: Draft, limits: Limits)
    requires ValidDraft(d, limits) && ValidDraft(e, limits)
    requires uuid(jobID, IdentityText(d)) == uuid(jobID, IdentityText(e)) ==> IdentityText(d) == IdentityText(e)
    ensures CandidateID(uuid, jobID, d) == CandidateID(uuid, jobID, e) <==>
            d.kind == e.kind && d.key == e.key && d.content == e.content
  {
    if CandidateID(uuid, jobID, d) == CandidateID(uuid, jobID, e) {
      KindTextPlain(d.kind);
      KindTextPlain(e.kind);
      KeyPlain(d.key, limits.maxKeyRunes);
      KeyPlain(e.key, limits.maxKeyRunes);
      SeparatorSplits(NUL, KindText(d.kind), d.key + [NUL] + d.content, KindText(e.kind), e.key + [NUL] + e.content);
      SeparatorSplits(NUL, d.key, d.content, e.key, e.content);
      KindTextInjective(d.kind, e.kind);
    }
  }

  /** The memory is a candidate that says what the draft says. */
  predicate Captures(m: Memory, d: Draft) {
    m.status == Candidate && m.kind == d.kind && m.key == d.key && m.content == d.content
  }

  /** Writing a candidate adds at most that one memory, as a candidate of its draft, and changes no existing one. */
  lemma CandidateWriteAdds(env: Env, s: State, uuid: Uuid, j: Job, d: Draft, now: Time)
    ensures var r := CandidateRequest(uuid, j, d, now);
            var s' := Create(env, s, r).0;
            && (forall id :: id in s.memories ==> id in s'.memories && s'.memories[id] == s.memories[id])
            && (forall id :: id in s'.memories && id !in s.memories ==>
                  id == CandidateID(uuid, j.id, d) && Captures(s'.memories[id], d))
            && (Create(env, s, r).1.Ok? ==> r.id in s'.memories)
  {
  }

  /** One write by some attempt of the job: a draft, the row as that attempt read it, and its clock. */
  datatype Write = Write(row: Job, draft: Draft, now: Time)

  function Written(env: Env, s: State, uuid: Uuid, ws: seq<Write>): State
    decreases ws
  {
    if ws == [] then s
    else Written(env, Create(env, s, CandidateRequest(uuid, ws[0].row, ws[0].draft, ws[0].now)).0, uuid, ws[1..])
  }

  /** Some write of the job put the memory there, and it says what that write's draft says. */
  predicate WrittenBy(uuid: Uuid, jobID: string, ws: seq<Write>, id: string, m: Memory) {
    exists w :: w in ws && id == CandidateID(uuid, jobID, w.draft) && Captures(m, w.draft)
  }

  lemma {:induction false} WritesAdd(env: Env, s: State, uuid: Uuid, jobID: string, ws: seq<Write>)
    requires forall w :: w in ws ==> w.row.id == jobID
    ensures var s' := Written(env, s, uuid, ws);
            && (forall id :: id in s.memories ==> id in s'.memories && s'.memories[id] == s.memories[id])
            && (forall id :: id in s'.memories && id !in s.memories ==> WrittenBy(uuid, jobID, ws, id, s'.memories[id]))
    decreases ws
  {
    if ws != [] {
      var next := Create(env, s, CandidateRequest(uuid, ws[0].row, ws[0].draft, ws[0].now)).0;
      CandidateWriteAdds(env, s, uuid, ws[0].row, ws[0].draft, ws[0].now);
      WritesAdd(env, next, uuid, jobID, ws[1..]);
      assert ws[0] in ws;
      var s' := Written(env, s, uuid, ws);
      forall id | id in s'.memories && id !in s.memories
        ensures WrittenBy(uuid, jobID, ws, id, s'.memories[id])
      {
        if id in next.memories {
          assert id == CandidateID(uuid, jobID, ws[0].draft) && Captures(s'.memories[id], ws[0].draft);
        } else {
          assert WrittenBy(uuid, jobID, ws[1..], id, s'.memories[id]);
          var w :| w in ws[1..] && id == CandidateID(uuid, jobID, w.draft) && Captures(s'.memories[id], w.draft);
          assert w in ws;
        }
      }
    }
  }

  lemma SameDraftSameID(uuid: Uuid, jobID: string, ws: seq<Write>, a: string, m: Memory, b: string, n: Memory)
    requires WrittenBy(uuid, jobID, ws, a, m) && WrittenBy(uuid, jobID, ws, b, n)
    requires m.kind == n.kind && m.key == n.key && m.content == n.content
    ensures a == b
  {
    var w :| w in ws && a == CandidateID(uuid, jobID, w.draft) && Captures(m, w.draft);
    var x :| x in ws && b == CandidateID(uuid, jobID, x.draft) && Captures(n, x.draft);
    assert IdentityText(w.draft) == IdentityText(x.draft);
  }

  /**
   Over any number of attempts of one job, with drafts repeated in any order and with any scores: existing memories
   stay as they are, everything added is a candidate with the kind, key and content of a written draft, and there is
   at most one of them per kind, key and content.
   */
  lemma RetriesOnlyAdd(env: Env, s: State, uuid: Uuid, jobID: string, ws: seq<Write>)
    requires forall w :: w in ws ==> w.row.id == jobID
    ensures var s' := Written(env, s, uuid, ws);
            && (forall id :: id in s.memories ==> id in s'.memories && s'.memories[id] == s.memories[id])
            && (forall id :: id in s'.memories && id !in s.memories ==> WrittenBy(uuid, jobID, ws, id, s'.memories[id]))
    ensures var s' := Written(env, s, uuid, ws);
            forall a, b :: a in s'.memories && a !in s.memories && b in s'.memories && b !in s.memories ==>
              var m, n := s'.memories[a], s'.memories[b];
              m.kind == n.kind && m.key == n.key && m.content == n.content ==> a == b
  {
    WritesAdd(env, s, uuid, jobID, ws);
    var s' := Written(env, s, uuid, ws);
    forall a, b | a in s'.memories && a !in s.memories && b in s'.memories && b !in s.memories
      ensures var m, n := s'.memories[a], s'.memories[b];
              m.kind == n.kind && m.key == n.key && m.content == n.content ==> a == b
    {
      var m, n := s'.memories[a], s'.memories[b];
      if m.kind == n.kind && m.key == n.key && m.content == n.content {
        SameDraftSameID(uuid, jobID, ws, a, m, b, n);
      }
    }
  }
}
