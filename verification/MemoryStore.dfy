/** The in-memory store: five maps changed in place, each command proved against its function in MemoryModel. */
module MemoryStore {
  import opened Wrappers
  import opened MemoryTypes
  import opened MemoryModel
  import opened MemoryInvariants

  /** The memories after supersession, visited in any order. */
  method RetireRivals(was: map<string, Memory>, target: Memory, now: Time) returns (current: map<string, Memory>)
    requires forall id :: id in was ==> was[id].id == id
    ensures current == map id | id in was :: MemoryAfter(was[id], target, now)
  {
    var ids := was.Keys;
    current := was;
    while ids != {}
      invariant ids <= was.Keys == current.Keys
      invariant forall id :: id in was ==>
                  current[id] == if id in ids then was[id] else MemoryAfter(was[id], target, now)
      decreases ids
    {
      var id :| id in ids;
      ids := ids - {id};
      var m := was[id];
      if !(id == target.id || m.status != Active || !SameConflictKey(m, target)) {
        current := current[id := m.(status := Inactive, version := m.version + 1, updatedAt := now)];
      }
    }
  }

  /** Their histories after supersession. */
  method ReviseRivals(was: map<string, Memory>, history: map<string, seq<Revision>>, target: Memory, actor: string,
                      reason: string, now: Time)
    returns (revised: map<string, seq<Revision>>)
    requires forall id :: id in was ==> was[id].id == id && id in history
    ensures revised == map id | id in history ::
                         if id in was then RevisionsAfter(history[id], was[id], target, actor, reason, now)
                         else history[id]
  {
    var ids := was.Keys;
    revised := history;
    while ids != {}
      invariant ids <= was.Keys && revised.Keys == history.Keys
      invariant forall id :: id in history ==>
                  revised[id] == if id in ids || id !in was then history[id]
                                 else RevisionsAfter(history[id], was[id], target, actor, reason, now)
      decreases ids
    {
      var id :| id in ids;
      ids := ids - {id};
      var m := was[id];
      if !(id == target.id || m.status != Active || !SameConflictKey(m, target)) {
        m := m.(status := Inactive, version := m.version + 1, updatedAt := now);
        var revision := Revision(id, m.version, SupersedeAction, actor, reason, m, false, now);
        revised := revised[id := history[id] + [revision]];
      }
    }
  }

  class Store {
    const env: Env
    var memories: map<string, Memory>
    var sources: map<string, seq<Source>>
    var revisions: map<string, seq<Revision>>
    var creates: map<(Scope, string), CreateRecord>
    var embeddings: map<(string, string), Embedding>

    function Contents(): State
      reads this
    {
      State(memories, sources, revisions, creates, embeddings)
    }

    /** Records are stored under their own ID and have a history; MemoryInvariants says what else holds. */
    ghost predicate Valid()
      reads this
    {
      forall id :: id in memories ==> memories[id].id == id && id in revisions
    }

    constructor (env: Env)
      ensures Valid() && this.env == env && Contents() == EMPTY
    {
      this.env := env;
      memories, sources, revisions, creates, embeddings := map[], map[], map[], map[], map[];
    }

    method AppendRevision(m: Memory, action: Action, actor: string, reason: string, now: Time, erased: bool)
      modifies this`revisions
      ensures revisions == old(revisions)[m.id := RevisionsOf(old(Contents()), m.id) +
                                                  [RevisionFor(m, action, actor, reason, now, erased)]]
    {
      var history := if m.id in revisions then revisions[m.id] else [];
      revisions := revisions[m.id := history + [Revision(m.id, m.version, action, actor, reason, m, erased, now)]];
    }

    /** Retires every other active memory with the target's conflict key. */
    method SupersedeActive(target: Memory, actor: string, reason: string, now: Time)
      requires Valid()
      modifies this`memories, this`revisions
      ensures Valid() && Contents() == Supersede(old(Contents()), target, actor, reason, now)
    {
      var ms := RetireRivals(memories, target, now);
      revisions := ReviseRivals(memories, revisions, target, actor, reason, now);
      memories := ms;
    }

    method Create(r: CreateRequest) returns (result: Result<Memory, Error>)
      requires Valid()
      modifies this
      ensures Valid() && (Contents(), result) == MemoryModel.Create(env, old(Contents()), r)
    {
      if !ValidCreate(r, env.limits) {
        return Err(InvalidMemory);
      }
      if r.idempotencyKey != "" {
        var identity := (r.scope, r.idempotencyKey);
        if identity in creates {
          var previous := creates[identity];
          var same := previous.id == r.id && previous.fingerprint == Some(FingerprintOf(r));
          if !previous.erased && same && r.id in memories {
            return Ok(memories[r.id]);
          }
          return Err(Conflict);
        }
      }
      if r.id in memories {
        return Err(Conflict);
      }
      var m := NewMemory(r);
      if m.status == Active {
        SupersedeActive(m, r.actor, r.reason, r.now);
      }
      memories := memories[m.id := m];
      sources := sources[m.id := r.sources];
      AppendRevision(m, CreateAction, r.actor, r.reason, r.now, false);
      if r.idempotencyKey != "" {
        creates := creates[(r.scope, r.idempotencyKey) := CreateRecord(r.id, Some(FingerprintOf(r)), false)];
      }
      return Ok(m);
    }

    method Activate(c: VersionedCommand) returns (result: Result<Memory, Error>)
      requires Valid()
      modifies this
      ensures Valid() && (Contents(), result) == MemoryModel.Activate(env, old(Contents()), c)
    {
      if !ValidCommand(c, env.limits) {
        return Err(InvalidMemory);
      }
      var target := Target(Contents(), c);
      if target.Err? {
        return target;
      }
      var m := target.value;
      if m.status != Candidate {
        return Err(Conflict);
      }
      SupersedeActive(m, c.actor, c.reason, c.now);
      m := m.(status := Active, version := m.version + 1, updatedAt := c.now);
      memories := memories[m.id := m];
      AppendRevision(m, ActivateAction, c.actor, c.reason, c.now, false);
      return Ok(m);
    }

    method Correct(r: CorrectRequest) returns (result: Result<Memory, Error>)
      requires Valid()
      modifies this
      ensures Valid() && (Contents(), result) == MemoryModel.Correct(env, old(Contents()), r)
    {
      if !ValidCorrect(r, env.limits) {
        return Err(InvalidMemory);
      }
      var target := Target(Contents(), r.command);
      if target.Err? {
        return target;
      }
      var m := Corrected(target.value, r);
      memories := memories[m.id := m];
      sources := sources[m.id := r.sources];
      AppendRevision(m, CorrectAction, r.command.actor, r.command.reason, r.command.now, false);
      return Ok(m);
    }

    method TransitionInactive(c: VersionedCommand, from: Status, action: Action) returns (result: Result<Memory, Error>)
      requires Valid()
      modifies this
      ensures Valid() && (Contents(), result) == Deactivate(env, old(Contents()), c, from, action)
    {
      if !ValidCommand(c, env.limits) {
        return Err(InvalidMemory);
      }
      var target := Target(Contents(), c);
      if target.Err? {
        return target;
      }
      var m := target.value;
      if m.status != from {
        return Err(Conflict);
      }
      m := m.(status := Inactive, version := m.version + 1, updatedAt := c.now);
      memories := memories[m.id := m];
      AppendRevision(m, action, c.actor, c.reason, c.now, false);
      return Ok(m);
    }

    method Dismiss(c: VersionedCommand) returns (result: Result<Memory, Error>)
      requires Valid()
      modifies this
      ensures Valid() && (Contents(), result) == Deactivate(env, old(Contents()), c, Candidate, DismissAction)
    {
      result := TransitionInactive(c, Candidate, DismissAction);
    }

    method Forget(c: VersionedCommand) returns (result: Result<Memory, Error>)
      requires Valid()
      modifies this
      ensures Valid() && (Contents(), result) == Deactivate(env, old(Contents()), c, Active, ForgetAction)
    {
      result := TransitionInactive(c, Active, ForgetAction);
    }

    method WipeEmbeddings(id: string)
      modifies this`embeddings
      ensures embeddings == DropEmbeddings(old(embeddings), id)
    {
      var was, keys := embeddings, embeddings.Keys;
      var kept: map<(string, string), Embedding> := map[];
      while keys != {}
        invariant keys <= was.Keys && forall k :: k in kept <==> k in was && k !in keys && k.0 != id
        invariant forall k :: k in kept ==> kept[k] == was[k]
        decreases keys
      {
        var k :| k in keys;
        keys := keys - {k};
        if k.0 != id {
          kept := kept[k := was[k]];
        }
      }
      embeddings := kept;
    }

    method WipeCreates(id: string)
      modifies this`creates
      ensures creates == EraseCreates(old(creates), id)
    {
      var was, keys := creates, creates.Keys;
      var after := creates;
      while keys != {}
        invariant keys <= was.Keys == after.Keys
        invariant forall k :: k in after ==>
                    after[k] == if k in keys || was[k].id != id then was[k] else CreateRecord(id, None, true)
        decreases keys
      {
        var k :| k in keys;
        keys := keys - {k};
        if was[k].id == id {
          after := after[k := was[k].(fingerprint := None, erased := true)];
        }
      }
      creates := after;
    }

    method WipeRevisions(id: string)
      modifies this`revisions
      ensures id in old(revisions) ==> revisions == old(revisions)[id := EraseRevisions(old(revisions)[id])]
      ensures id !in old(revisions) ==> revisions == old(revisions)
    {
      if id in revisions {
        var was, wiped := revisions[id], [];
        for i := 0 to |was|
          invariant |wiped| == i && forall j :: 0 <= j < i ==> wiped[j] == EraseRevision(was[j])
          invariant revisions == old(revisions)
        {
          var revision := was[i];
          wiped := wiped + [revision.(snapshot := revision.snapshot.(content := ""), contentErased := true)];
        }
        assert wiped == EraseRevisions(was);
        revisions := revisions[id := wiped];
      }
    }

    /** Removes content, sources, embeddings and replay fingerprints, and records that it did. */
    method Erase(c: VersionedCommand) returns (result: Result<Memory, Error>)
      requires Valid()
      modifies this
      ensures Valid() && (Contents(), result) == MemoryModel.Erase(env, old(Contents()), c)
    {
      if !ValidCommand(c, env.limits) {
        return Err(InvalidMemory);
      }
      var target := Target(Contents(), c);
      if target.Err? {
        return target;
      }
      var m := target.value.(content := "", status := Inactive, version := target.value.version + 1,
                             updatedAt := c.now);
      Wipe(m, c);
      assert m == Next(target.value, Inactive, c.now).(content := "");
      assert Contents().revisions == Erased(old(Contents()), target.value, c).revisions;
      return Ok(m);
    }

    /** Everything kept for the memory is emptied and its erasure recorded. */
    method Wipe(m: Memory, c: VersionedCommand)
      requires Valid() && m.id in memories
      modifies this
      ensures Valid()
      ensures memories == old(memories)[m.id := m] && sources == old(sources)[m.id := []]
      ensures embeddings == DropEmbeddings(old(embeddings), m.id) && creates == EraseCreates(old(creates), m.id)
      ensures revisions == old(revisions)[m.id := EraseRevisions(old(revisions)[m.id]) +
                                                  [RevisionFor(m, EraseAction, c.actor, c.reason, c.now, true)]]
    {
      memories := memories[m.id := m];
      sources := sources[m.id := []];
      WipeEmbeddings(m.id);
      WipeCreates(m.id);
      WipeRevisions(m.id);
      AppendRevision(m, EraseAction, c.actor, c.reason, c.now, true);
    }

    method PutEmbedding(r: PutEmbeddingRequest) returns (ok: bool)
      requires Valid()
      modifies this
      ensures Valid() && (Contents(), ok) == MemoryModel.PutEmbedding(env, old(Contents()), r)
    {
      if !ValidPut(r, env.limits) || r.memoryID !in memories {
        return false;
      }
      var m := memories[r.memoryID];
      if m.scope != r.scope || m.status != Active || env.hash(m.content) != r.contentHash {
        return false;
      }
      embeddings := embeddings[(r.memoryID, r.profileID) := Embedding(r.contentHash, r.dimensions, r.vector)];
      return true;
    }

    /** A page of history: the newest `limit` revisions below `before` (0 means from the top), newest first. */
    method Revisions(scope: Scope, id: string, before: int, limit: int) returns (page: Result<seq<Revision>, Error>)
      requires Valid() && (id in memories ==> Recorded(Contents(), id))
      ensures page == Err(InvalidMemory) <==>
              !(&& env.limits.Valid() && scope.Valid() && ValidID(id)
                && before >= 0 && 0 < limit <= env.limits.maxListItems)
      ensures page.Ok? ==>
                && id in memories && memories[id].scope == scope && Recorded(Contents(), id)
                && var top := if 0 < before <= memories[id].version then before - 1 else memories[id].version;
                && |page.value| == (if top < limit then top else limit)
                && forall i :: 0 <= i < |page.value| ==> page.value[i] == revisions[id][top - 1 - i]
      ensures page.Err? && page.error != InvalidMemory ==>
                page.error == NotFound && (id !in memories || memories[id].scope != scope)
    {
      if !(env.limits.Valid() && scope.Valid() && ValidID(id) && before >= 0 && 0 < limit <= env.limits.maxListItems) {
        return Err(InvalidMemory);
      }
      if id !in memories || memories[id].scope != scope {
        return Err(NotFound);
      }
      var stored := revisions[id];
      ghost var top := if 0 < before <= |stored| then before - 1 else |stored|;
      var result := [];
      var index := |stored|;
      while index > 0 && |result| < limit
        invariant 0 <= index <= |stored| && |result| <= limit
        invariant |result| == (if index < top then top - index else 0)
        invariant forall i :: 0 <= i < |result| ==> result[i] == stored[top - 1 - i]
      {
        index := index - 1;
        if before > 0 && stored[index].version >= before {
          continue;
        }
        result := result + [stored[index]];
      }
      return Ok(result);
    }
  }
}
