/** The job table as its conditional row updates change it, and the loop in which a worker writes its candidates. */
module ExtractionWorker {
  import opened Wrappers
  import opened MemoryTypes
  import opened MemoryModel
  import opened MemoryStore
  import opened Extraction

  /** The rows whose last lease ran out, ended one by one. */
  method Sweep(was: map<string, Job>, max: nat, now: Time) returns (swept: map<string, Job>)
    ensures swept == map id | id in was :: Terminalized(was[id], max, now)
  {
    swept := was;
    var ids := was.Keys;
    while ids != {}
      invariant ids <= was.Keys == swept.Keys
      invariant forall id :: id in was ==> swept[id] == if id in ids then was[id] else Terminalized(was[id], max, now)
      decreases ids
    {
      var id :| id in ids;
      ids := ids - {id};
      var j := was[id];
      if j.status == JobLeased && j.leaseUntil.Some? && j.leaseUntil.value <= now && j.attempts >= max {
        swept := swept[id := j.(status := JobFailed, source := NO_SOURCE, sourceAgentID := "", leaseOwner := "",
                                leaseUntil := None, failureCode := "lease_exhausted", updatedAt := now)];
      }
    }
  }

  class JobTable {
    const max: nat
    var jobs: map<string, Job>
    ghost var commits: multiset<(string, nat)>

    /** The table with the history of accepted commits. */
    ghost function Contents(): Queue
      reads this
    {
      Queue(jobs, commits)
    }

    constructor (max: nat)
      ensures this.max == max && Contents() == EMPTY_QUEUE
    {
      this.max, jobs, commits := max, map[], multiset{};
    }

    /** ClaimExtraction: exhausted leases end first, then one claimable row is leased for its next attempt. */
    method ClaimExtraction(worker: string, lease: int, now: Time, pick: string) returns (job: Option<Job>)
      modifies this`jobs
      ensures Contents() == Extraction.Apply(max, old(Contents()), Claim(worker, lease, now, pick))
      ensures job.Some? ==> pick in jobs && jobs[pick] == job.value && Holds(job.value, worker, job.value.attempts, now)
    {
      if !ValidClaim(worker, lease, now) {
        return None;
      }
      jobs := Sweep(jobs, max, now);
      if pick !in jobs || !Claimable(jobs[pick], max, now) {
        return None;
      }
      var leased := Leased(jobs[pick], worker, lease, now);
      jobs := jobs[pick := leased];
      job := Some(leased);
    }

    /** CompleteExtraction: only the unexpired holder of this very attempt may complete it. */
    method CompleteExtraction(id: string, worker: string, attempt: int, now: Time) returns (ok: bool)
      modifies this
      ensures Contents() == Extraction.Apply(max, old(Contents()), Complete(id, worker, attempt, now))
      ensures ok <==> id in old(jobs) && Holds(old(jobs)[id], worker, attempt, now)
    {
      ok := id in jobs && Holds(jobs[id], worker, attempt, now);
      if ok {
        commits := commits + multiset{(id, jobs[id].attempts)};
        jobs := jobs[id := Completed(jobs[id], now)];
      }
    }

    /** FailExtraction: back to pending, or failed for good on the last attempt. */
    method FailExtraction(id: string, worker: string, attempt: int, code: string, now: Time) returns (ok: bool)
      modifies this
      ensures Contents() == Extraction.Apply(max, old(Contents()), Fail(id, worker, attempt, code, now))
      ensures ok <==> id in old(jobs) && Holds(old(jobs)[id], worker, attempt, now)
    {
      ok := id in jobs && Holds(jobs[id], worker, attempt, now);
      if ok {
        commits := commits + multiset{(id, jobs[id].attempts)};
        jobs := jobs[id := FailedOnce(jobs[id], code, max, now)];
      }
    }
  }

  lemma {:induction false} WrittenSnoc(env: Env, s: State, uuid: Uuid, ws: seq<Write>, w: Write)
    ensures Written(env, s, uuid, ws + [w])
            == Create(env, Written(env, s, uuid, ws), CandidateRequest(uuid, w.row, w.draft, w.now)).0
    decreases ws
  {
    if ws == [] {
      assert [w][1..] == [];
    } else {
      assert (ws + [w])[0] == ws[0] && (ws + [w])[1..] == ws[1..] + [w];
      WrittenSnoc(env, Create(env, s, CandidateRequest(uuid, ws[0].row, ws[0].draft, ws[0].now)).0, uuid, ws[1..], w);
    }
  }

  /** A write of the claimed row's valid draft. */
  predicate OwnWrite(j: Job, drafts: seq<Draft>, limits: Limits, w: Write) {
    w.row == j && w.draft in drafts && ValidDraft(w.draft, limits)
  }

  /** The writes of one attempt: its own, and each candidate ID once. */
  ghost predicate OwnWrites(uuid: Uuid, j: Job, drafts: seq<Draft>, limits: Limits, ws: seq<Write>) {
    && (forall i :: 0 <= i < |ws| ==> OwnWrite(j, drafts, limits, ws[i]))
    && (forall i, k :: 0 <= i < k < |ws| ==>
          CandidateID(uuid, j.id, ws[i].draft) != CandidateID(uuid, j.id, ws[k].draft))
  }

  /** One of the writes has this candidate ID. */
  ghost predicate HasWrite(uuid: Uuid, j: Job, ws: seq<Write>, id: string) {
    exists i :: 0 <= i < |ws| && CandidateID(uuid, j.id, ws[i].draft) == id
  }

  /** The candidate IDs of the writes are these. */
  ghost predicate WrittenIDs(uuid: Uuid, j: Job, ws: seq<Write>, ids: set<string>) {
    forall id :: id in ids <==> HasWrite(uuid, j, ws, id)
  }

  lemma HasMore(uuid: Uuid, j: Job, ws: seq<Write>, w: Write, id: string)
    ensures HasWrite(uuid, j, ws + [w], id) <==> HasWrite(uuid, j, ws, id) || id == CandidateID(uuid, j.id, w.draft)
  {
    var more := ws + [w];
    assert more[|ws|] == w;
    if HasWrite(uuid, j, ws, id) {
      var i :| 0 <= i < |ws| && CandidateID(uuid, j.id, ws[i].draft) == id;
      assert more[i] == ws[i];
    }
  }

  lemma OwnMore(uuid: Uuid, j: Job, drafts: seq<Draft>, limits: Limits, ws: seq<Write>, ids: set<string>, w: Write)
    requires OwnWrites(uuid, j, drafts, limits, ws) && WrittenIDs(uuid, j, ws, ids) && OwnWrite(j, drafts, limits, w)
    requires CandidateID(uuid, j.id, w.draft) !in ids
    ensures OwnWrites(uuid, j, drafts, limits, ws + [w])
    ensures WrittenIDs(uuid, j, ws + [w], ids + {CandidateID(uuid, j.id, w.draft)})
  {
    forall id ensures HasWrite(uuid, j, ws + [w], id) <==> id in ids + {CandidateID(uuid, j.id, w.draft)} {
      HasMore(uuid, j, ws, w, id);
    }
    forall i | 0 <= i < |ws| ensures CandidateID(uuid, j.id, ws[i].draft) != CandidateID(uuid, j.id, w.draft) {
      assert HasWrite(uuid, j, ws, CandidateID(uuid, j.id, ws[i].draft));
    }
  }

  /** The first n drafts are valid, and their candidate IDs are among these. */
  predicate Handled(uuid: Uuid, j: Job, drafts: seq<Draft>, limits: Limits, n: nat, ids: set<string>)
    requires n <= |drafts|
  {
    forall k :: 0 <= k < n ==> ValidDraft(drafts[k], limits) && CandidateID(uuid, j.id, drafts[k]) in ids
  }

  /** Every draft is valid and written. */
  ghost predicate AllWritten(uuid: Uuid, j: Job, drafts: seq<Draft>, limits: Limits, ws: seq<Write>) {
    forall d :: d in drafts ==> ValidDraft(d, limits) && HasWrite(uuid, j, ws, CandidateID(uuid, j.id, d))
  }

  lemma HandledMore(uuid: Uuid, j: Job, drafts: seq<Draft>, limits: Limits, n: nat, ids: set<string>, ids': set<string>)
    requires n < |drafts| && Handled(uuid, j, drafts, limits, n, ids) && ids <= ids'
    requires ValidDraft(drafts[n], limits) && CandidateID(uuid, j.id, drafts[n]) in ids'
    ensures Handled(uuid, j, drafts, limits, n + 1, ids')
  {
  }

  lemma HandledAll(uuid: Uuid, j: Job, drafts: seq<Draft>, limits: Limits, ids: set<string>, ws: seq<Write>)
    requires Handled(uuid, j, drafts, limits, |drafts|, ids) && WrittenIDs(uuid, j, ws, ids)
    ensures AllWritten(uuid, j, drafts, limits, ws)
  {
  }

  method WriteCandidate(store: Store, uuid: Uuid, w: Write, ghost start: State, ghost ws: seq<Write>)
    returns (created: Result<Memory, Error>)
    requires store.Valid() && store.Contents() == Written(store.env, start, uuid, ws)
    modifies store
    ensures store.Valid() && store.Contents() == Written(store.env, start, uuid, ws + [w])
  {
    WrittenSnoc(store.env, start, uuid, ws, w);
    created := store.Create(CandidateRequest(uuid, w.row, w.draft, w.now));
  }

  /** What the host and the clock decide about a draft: its content, the lease before its write, the record returned. */
  datatype Checks = Checks(accepts: string -> bool, inLease: nat -> bool, confirms: (Memory, CreateRequest) -> bool)

  predicate Writable(uuid: Uuid, j: Job, d: Draft, limits: Limits, now: Time) {
    ValidCreate(CandidateRequest(uuid, j, d, now), limits)
  }

  predicate Confirmed(checks: Checks, uuid: Uuid, w: Write, created: Result<Memory, Error>) {
    var request := CandidateRequest(uuid, w.row, w.draft, w.now);
    created == Err(Conflict) || (created.Ok? && checks.confirms(created.value, request))
  }

  /** The loop over drafts in RunOnce. */
  method WriteDrafts(store: Store, uuid: Uuid, j: Job, drafts: seq<Draft>, checks: Checks, now: Time)
    returns (ok: bool, ghost ws: seq<Write>)
    requires store.Valid()
    modifies store
    ensures store.Valid()
    ensures store.Contents() == Written(store.env, old(store.Contents()), uuid, ws)
    ensures OwnWrites(uuid, j, drafts, store.env.limits, ws)
    ensures ok ==> AllWritten(uuid, j, drafts, store.env.limits, ws)
  {
    ws := [];
    ghost var start := store.Contents();
    var limits := store.env.limits;
    var written: set<string> := {};
    for i := 0 to |drafts|
      invariant store.Valid() && store.Contents() == Written(store.env, start, uuid, ws)
      invariant OwnWrites(uuid, j, drafts, limits, ws) && WrittenIDs(uuid, j, ws, written)
      invariant Handled(uuid, j, drafts, limits, i, written)
    {
      var w := Write(j, drafts[i], now);
      if !ValidDraft(w.draft, limits) || !checks.accepts(w.draft.content) {
        return false, ws;
      }
      var id := CandidateID(uuid, j.id, w.draft);
      HandledMore(uuid, j, drafts, limits, i, written, written + {id});
      if id in written {
        assert written == written + {id};
        continue;
      }
      if !Writable(uuid, j, w.draft, limits, now) || !checks.inLease(i) {
        return false, ws;
      }
      OwnMore(uuid, j, drafts, limits, ws, written, w);
      written := written + {id};
      var created := WriteCandidate(store, uuid, w, start, ws);
      ws := ws + [w];
      if !Confirmed(checks, uuid, w, created) {
        return false, ws;
      }
    }
    HandledAll(uuid, j, drafts, limits, written, ws);
    ok := true;
  }
}
