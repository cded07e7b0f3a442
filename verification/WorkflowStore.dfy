/**
 The in-memory queue store: a map of runs, changed in place under one lock. Each operation
 is proved to make exactly the change its event makes in the transition system.
 */
module WorkflowStore {
  import opened Wrappers
  import opened Order
  import opened WorkflowRun
  import opened WorkflowProtocol
  import opened WorkflowLeases

  datatype StoreError = InvalidArgument | RunNotFound | NoRunnableWorkflow | LeaseNotOwned

  /** Queue order: creation time, then id. */
  predicate Earlier(a: Run, b: Run) {
    a.createdAt < b.createdAt || (a.createdAt == b.createdAt && Less(a.id, b.id))
  }

  lemma EarlierOrder(a: Run, b: Run, c: Run)
    ensures Earlier(a, b) && Earlier(b, c) ==> Earlier(a, c)
    ensures a.id != b.id ==> Earlier(a, b) || Earlier(b, a)
  {
    if Less(a.id, b.id) && Less(b.id, c.id) {
      LessTransitive(a.id, b.id, c.id);
    }
    LessTotal(a.id, b.id);
  }

  class MemoryStore {
    var runs: map<string, Run>

    ghost predicate Valid()
      reads this
    {
      forall id :: id in runs ==> runs[id].id == id
    }

    constructor ()
      ensures Valid() && runs == map[]
    {
      runs := map[];
    }

    /** Hands the earliest claimable run to the worker under a new lease. */
    method ClaimRunnable(worker: string, lease: int, now: Time) returns (r: Result<Run, StoreError>)
      requires Valid()
      modifies this
      ensures Valid()
      ensures r == Err(InvalidArgument) <==> worker == "" || lease <= 0
      ensures r == Err(NoRunnableWorkflow) ==> forall id :: id in runs ==> !Takeable(runs[id], now)
      ensures r.Err? ==> runs == old(runs) && r.error in {InvalidArgument, NoRunnableWorkflow}
      ensures r.Ok? ==> r.value.id in old(runs) && Takeable(old(runs)[r.value.id], now)
      ensures r.Ok? ==> forall id :: id in old(runs) && id != r.value.id && Takeable(old(runs)[id], now) ==>
                          && old(runs)[r.value.id].createdAt <= old(runs)[id].createdAt
                          && (old(runs)[r.value.id].createdAt == old(runs)[id].createdAt ==> Less(r.value.id, id))
      ensures r.Ok? ==> r.value == old(runs)[r.value.id].(leaseOwner := worker, leaseUntil := now + lease)
      ensures r.Ok? ==> runs == old(runs)[r.value.id := r.value]
      ensures r.Ok? ==> runs == StoreAfter(old(runs), Claim(r.value.id, worker, lease, now))
    {
      if worker == "" || lease <= 0 {
        return Err(InvalidArgument);
      }
      var ids := runs.Keys;
      var best: Option<string> := None;
      while ids != {}
        invariant runs == old(runs) && ids <= runs.Keys
        invariant best.Some? ==> best.value in runs.Keys - ids && Claimable(runs[best.value], now)
        invariant best.None? ==> forall id :: id in runs.Keys - ids ==> !Claimable(runs[id], now)
        invariant best.Some? ==> forall id :: id in runs.Keys - ids && id != best.value && Claimable(runs[id], now) ==>
                                   Earlier(runs[best.value], runs[id])
        decreases ids
      {
        var id :| id in ids;
        ids := ids - {id};
        if Claimable(runs[id], now) {
          if best.None? {
            best := Some(id);
          } else {
            EarlierOrder(runs[id], runs[best.value], runs[best.value]);
            if Earlier(runs[id], runs[best.value]) {
              forall other | other in runs {
                EarlierOrder(runs[id], runs[best.value], runs[other]);
              }
              best := Some(id);
            }
          }
        }
      }
      if best.None? {
        return Err(NoRunnableWorkflow);
      }
      var run := ClaimUpdate(runs[best.value], worker, lease, now);
      runs := runs[best.value := run];
      return Ok(run);
    }

    method ExtendLease(id: string, worker: string, lease: int, now: Time) returns (r: Result<Run, StoreError>)
      requires Valid()
      modifies this
      ensures Valid() && runs == StoreAfter(old(runs), Extend(id, worker, lease, now))
      ensures r.Ok? <==> id != "" && worker != "" && lease > 0 && id in old(runs) && old(runs)[id].leaseOwner == worker
                         && old(runs)[id].leaseUntil != ZERO_TIME && old(runs)[id].leaseUntil > now
      ensures r.Ok? ==> r.value == old(runs)[id].(leaseUntil := now + lease) && runs == old(runs)[id := r.value]
      ensures r.Err? ==> runs == old(runs)
    {
      if id == "" || worker == "" || lease <= 0 {
        return Err(InvalidArgument);
      }
      if id !in runs {
        return Err(RunNotFound);
      }
      var run := runs[id];
      if run.leaseOwner != worker || run.leaseUntil == ZERO_TIME || run.leaseUntil <= now {
        return Err(LeaseNotOwned);
      }
      run := run.(leaseUntil := now + lease);
      runs := runs[id := run];
      return Ok(run);
    }

    method ReleaseLease(id: string, worker: string) returns (r: Result<Run, StoreError>)
      requires Valid()
      modifies this
      ensures Valid() && runs == StoreAfter(old(runs), Release(id, worker))
      ensures r.Ok? <==> id != "" && worker != "" && id in old(runs) && old(runs)[id].leaseOwner == worker
      ensures r.Ok? ==> r.value == old(runs)[id].(leaseOwner := "", leaseUntil := ZERO_TIME)
      ensures r.Ok? ==> runs == old(runs)[id := r.value]
      ensures r.Err? ==> runs == old(runs)
    {
      if id == "" || worker == "" {
        return Err(InvalidArgument);
      }
      if id !in runs {
        return Err(RunNotFound);
      }
      if runs[id].leaseOwner != worker {
        return Err(LeaseNotOwned);
      }
      var run := runs[id].(leaseOwner := "", leaseUntil := ZERO_TIME);
      runs := runs[id := run];
      return Ok(run);
    }

    /** Fails every running run whose lease has expired, and reports them ordered by id. */
    method FailExpiredRunning(now: Time, reason: string) returns (failed: seq<Run>)
      requires Valid()
      modifies this
      ensures Valid() && runs == StoreAfter(old(runs), Recover(now, reason))
      ensures forall id :: id in old(runs) && Expired(old(runs)[id], now) ==> runs[id] in failed
      ensures forall r :: r in failed ==> r.id in old(runs) && Expired(old(runs)[r.id], now) && runs[r.id] == r
      ensures forall i, j :: 0 <= i < j < |failed| ==> Less(failed[i].id, failed[j].id)
    {
      var was, ids := runs, runs.Keys;
      var after: map<string, Run> := map[];
      failed := [];
      while ids != {}
        invariant ids !! after.Keys && ids + after.Keys == was.Keys
        invariant forall id :: id in after ==> after[id] == RunAfter(Recover(now, reason), id, was[id])
        invariant Lists(failed, was, after, now)
        decreases ids
      {
        var id :| id in ids;
        ids := ids - {id};
        var run := was[id];
        ghost var listed := failed;
        if Expired(run, now) {
          run := FailExpired(run, reason);
          failed := InsertById(failed, run);
        }
        ListsMore(listed, failed, was, after, now, run);
        after := after[id := run];
      }
      runs := after;
    }
  }

  /** The recovered runs among those visited, in the order of their ids. */
  ghost predicate Lists(failed: seq<Run>, was: map<string, Run>, after: map<string, Run>, now: Time)
    requires after.Keys <= was.Keys
  {
    && (forall id :: id in after && Expired(was[id], now) ==> after[id] in failed)
    && (forall r :: r in failed ==> r.id in after && Expired(was[r.id], now) && after[r.id] == r)
    && (forall i, j :: 0 <= i < j < |failed| ==> Less(failed[i].id, failed[j].id))
  }

  lemma ListsMore(listed: seq<Run>, failed: seq<Run>, was: map<string, Run>, after: map<string, Run>, now: Time,
                  run: Run)
    requires after.Keys <= was.Keys && Lists(listed, was, after, now) && run.id in was && run.id !in after
    requires if Expired(was[run.id], now) then forall r :: r in failed <==> r == run || r in listed
             else failed == listed
    requires forall i, j :: 0 <= i < j < |failed| ==> Less(failed[i].id, failed[j].id)
    ensures Lists(failed, was, after[run.id := run], now)
  {
  }

  /** Inserts a run with a new id into a list ordered by id. */
  method InsertById(xs: seq<Run>, x: Run) returns (ys: seq<Run>)
    requires forall i, j :: 0 <= i < j < |xs| ==> Less(xs[i].id, xs[j].id)
    requires forall y :: y in xs ==> y.id != x.id
    ensures forall i, j :: 0 <= i < j < |ys| ==> Less(ys[i].id, ys[j].id)
    ensures forall y :: y in ys <==> y == x || y in xs
  {
    var k := 0;
    while k < |xs| && Less(xs[k].id, x.id)
      invariant k <= |xs| && forall i :: 0 <= i < k ==> Less(xs[i].id, x.id)
    {
      k := k + 1;
    }
    ys := xs[..k] + [x] + xs[k..];
    forall j | k <= j < |xs|
      ensures Less(x.id, xs[j].id)
    {
      LessTotal(x.id, xs[k].id);
      if k < j {
        LessTransitive(x.id, xs[k].id, xs[j].id);
      }
    }
  }
}
