/**
 What each store command writes: when it succeeds, the record, sources and revision it leaves, and that nothing else
 changes; that what was written last stays until it is corrected or erased; and that every record keeps the limits.
 */
module MemoryEffects {
  import opened Wrappers
  import opened Text
  import opened MemoryTypes
  import opened MemoryModel
  import opened MemoryInvariants

  // ---- parts of a state ---------------------------------------------------------------------------

  /** The command addresses a stored memory of its scope at its current version. */
  predicate Addresses(s: State, c: VersionedCommand) {
    c.id in s.memories && s.memories[c.id].scope == c.scope && s.memories[c.id].version == c.expectedVersion
  }

  /** Why a versioned command fails: invalid, not there, or changed in between. */
  function Refusal(env: Env, s: State, c: VersionedCommand, valid: bool): Error {
    if !valid then InvalidMemory
    else if c.id !in s.memories || s.memories[c.id].scope != c.scope then NotFound
    else Conflict
  }

  /** One revision was added to the memory's history, with a snapshot of its record. */
  predicate Logs(s: State, s': State, id: string, action: Action, actor: string, reason: string, now: Time) {
    && id in s'.memories && id in s'.revisions
    && var m := s'.memories[id];
    && s'.revisions[id] == (if id in s.revisions then s.revisions[id] else [])
                           + [Revision(id, m.version, action, actor, reason, m, false, now)]
  }

  predicate SameMemory(s: State, s': State, id: string) {
    && (id in s.memories <==> id in s'.memories) && (id in s.memories ==> s'.memories[id] == s.memories[id])
    && (id in s.sources <==> id in s'.sources) && (id in s.sources ==> s'.sources[id] == s.sources[id])
    && (id in s.revisions <==> id in s'.revisions) && (id in s.revisions ==> s'.revisions[id] == s.revisions[id])
  }

  /** Nothing changed but the one memory. */
  ghost predicate OnlyMemory(s: State, s': State, id: string) {
    s'.creates == s.creates && s'.embeddings == s.embeddings && forall k :: k != id ==> SameMemory(s, s', k)
  }

  /** Records are stored under their own IDs and have a history, as they do in every sound state. */
  predicate Keyed(s: State) {
    forall id :: id in s.memories ==> s.memories[id].id == id && id in s.revisions
  }

  lemma SoundKeyed(s: State)
    requires Sound(s)
    ensures Keyed(s)
  {
    forall id | id in s.memories ensures s.memories[id].id == id && id in s.revisions {
      assert Recorded(s, id);
    }
  }

  // ---- corrections and status changes -------------------------------------------------------------

  /**
   A correction succeeds if and only if it is valid and addresses the memory. The record then has the request's
   content, validity and scores under the next version, its other fields are kept, its sources are the request's, and
   no other memory changes.
   */
  lemma CorrectStores(env: Env, s: State, r: CorrectRequest)
    requires Keyed(s)
    ensures var (s', result) := Correct(env, s, r);
            var c := r.command;
            if ValidCorrect(r, env.limits) && Addresses(s, c) then
              && c.id in s'.memories && result == Ok(s'.memories[c.id]) && OnlyMemory(s, s', c.id)
              && var m, m' := s.memories[c.id], s'.memories[c.id];
              && m'.content == r.content && m'.validFrom == r.validFrom && m'.validUntil == r.validUntil
              && m'.importance == r.importance && m'.confidence == r.confidence
              && m'.version == c.expectedVersion + 1 && m'.updatedAt == c.now
              && m'.id == m.id && m'.key == m.key && m'.sourceAgentID == m.sourceAgentID
              && m'.createdBy == m.createdBy && m'.idempotencyKey == m.idempotencyKey && m'.scope == m.scope
              && m'.kind == m.kind && m'.status == m.status && m'.createdAt == m.createdAt
              && c.id in s'.sources && s'.sources[c.id] == r.sources
              && Logs(s, s', c.id, CorrectAction, c.actor, c.reason, c.now)
            else (s', result) == (s, Err(Refusal(env, s, c, ValidCorrect(r, env.limits))))
  {
  }

  /** The record changed status under the next version, and only that. */
  predicate Moves(s: State, s': State, c: VersionedCommand, status: Status) {
    && c.id in s.memories && c.id in s'.memories
    && s'.memories[c.id] == s.memories[c.id].(status := status, version := c.expectedVersion + 1, updatedAt := c.now)
    && (c.id in s.sources <==> c.id in s'.sources) && (c.id in s.sources ==> s'.sources[c.id] == s.sources[c.id])
  }

  /** Dismissing or forgetting makes a memory inactive, if and only if it addresses one in the right status. */
  lemma DeactivateStores(env: Env, s: State, c: VersionedCommand, from: Status, action: Action)
    requires Keyed(s)
    ensures var (s', result) := Deactivate(env, s, c, from, action);
            if ValidCommand(c, env.limits) && Addresses(s, c) && s.memories[c.id].status == from then
              && Moves(s, s', c, Inactive) && result == Ok(s'.memories[c.id]) && OnlyMemory(s, s', c.id)
              && Logs(s, s', c.id, action, c.actor, c.reason, c.now)
            else (s', result) == (s, Err(Refusal(env, s, c, ValidCommand(c, env.limits))))
  {
  }

  // ---- activation and creation: rivals retire -----------------------------------------------------

  /** Another active memory with the scope, kind and key of the one that becomes active. */
  predicate IsRival(m: Memory, id: string, scope: Scope, kind: Kind, key: string) {
    m.id != id && m.status == Active && m.scope == scope && m.kind == kind && m.key == key
  }

  /** What has become active: its ID, its conflict key, and who did it. */
  datatype Winner = Winner(id: string, scope: Scope, kind: Kind, key: string, actor: string, reason: string, now: Time)

  /** A rival becomes inactive under its next version, keeping its content; any other memory is the same. */
  predicate OtherAfter(s: State, s': State, k: string, w: Winner)
    requires k in s.memories
  {
    if IsRival(s.memories[k], w.id, w.scope, w.kind, w.key) then
      && k in s'.memories
      && s'.memories[k] == s.memories[k].(status := Inactive, version := s.memories[k].version + 1, updatedAt := w.now)
      && (k in s.sources <==> k in s'.sources) && (k in s.sources ==> s'.sources[k] == s.sources[k])
      && Logs(s, s', k, SupersedeAction, w.actor, w.reason, w.now)
    else SameMemory(s, s', k)
  }

  predicate OthersAfter(s: State, s': State, w: Winner) {
    forall k :: k in s.memories && k != w.id ==> OtherAfter(s, s', k, w)
  }

  lemma SupersedeOthers(s: State, target: Memory, actor: string, reason: string, now: Time)
    requires Keyed(s)
    ensures var s' := Supersede(s, target, actor, reason, now);
            && s'.memories.Keys == s.memories.Keys && s'.sources == s.sources
            && OthersAfter(s, s', Winner(target.id, target.scope, target.kind, target.key, actor, reason, now))
            && (target.id in s.memories ==> SameMemory(s, s', target.id))
  {
    var s', w := Supersede(s, target, actor, reason, now),
                 Winner(target.id, target.scope, target.kind, target.key, actor, reason, now);
    forall k | k in s.memories && k != target.id ensures OtherAfter(s, s', k, w) {
      assert IsRival(s.memories[k], w.id, w.scope, w.kind, w.key) == Superseded(s.memories[k], target);
    }
  }

  /** Storing the winner itself, its sources and its creation leaves the others as supersession left them. */
  lemma PutKeepsOthers(s: State, cleared: State, m: Memory, action: Action, w: Winner, stored: State)
    requires OthersAfter(s, cleared, w) && m.id == w.id
    requires stored.memories == cleared.memories[m.id := m]
    requires forall k :: k != m.id ==> (k in stored.sources <==> k in cleared.sources)
    requires forall k :: k != m.id && k in cleared.sources ==> stored.sources[k] == cleared.sources[k]
    requires forall k :: k != m.id ==> (k in stored.revisions <==> k in cleared.revisions)
    requires forall k :: k != m.id && k in cleared.revisions ==> stored.revisions[k] == cleared.revisions[k]
    ensures OthersAfter(s, stored, w)
  {
    forall k | k in s.memories && k != w.id ensures OtherAfter(s, stored, k, w) {
      assert OtherAfter(s, cleared, k, w);
    }
  }

  /** Activation succeeds if and only if it addresses a candidate, which becomes active while its rivals retire. */
  lemma ActivateStores(env: Env, s: State, c: VersionedCommand)
    requires Keyed(s)
    ensures var (s', result) := Activate(env, s, c);
            if ValidCommand(c, env.limits) && Addresses(s, c) && s.memories[c.id].status == Candidate then
              && Moves(s, s', c, Active) && result == Ok(s'.memories[c.id]) && s'.memories.Keys == s.memories.Keys
              && s'.creates == s.creates && s'.embeddings == s.embeddings
              && var m := s.memories[c.id];
              && OthersAfter(s, s', Winner(c.id, m.scope, m.kind, m.key, c.actor, c.reason, c.now))
              && Logs(s, s', c.id, ActivateAction, c.actor, c.reason, c.now)
            else (s', result) == (s, Err(Refusal(env, s, c, ValidCommand(c, env.limits))))
  {
    if c.id in s.memories {
      var m := s.memories[c.id];
      SupersedeOthers(s, m, c.actor, c.reason, c.now);
      var cleared := Supersede(s, m, c.actor, c.reason, c.now);
      PutKeepsOthers(s, cleared, Next(m, Active, c.now), ActivateAction,
                     Winner(c.id, m.scope, m.kind, m.key, c.actor, c.reason, c.now),
                     Put(cleared, Next(m, Active, c.now), ActivateAction, c.actor, c.reason, c.now, false));
    }
  }

  /** The stored record says what the request said. */
  predicate SaysRequest(m: Memory, r: CreateRequest) {
    && m.id == r.id && m.scope == r.scope && m.kind == r.kind && m.key == r.key && m.status == r.status
    && m.content == r.content && m.validFrom == r.validFrom && m.validUntil == r.validUntil
    && m.importance == r.importance && m.confidence == r.confidence && m.sourceAgentID == r.sourceAgentID
    && m.createdBy == r.actor && m.idempotencyKey == r.idempotencyKey
    && m.version == 1 && m.createdAt == r.now && m.updatedAt == r.now
  }

  /** Neither the ID nor, if it has one, the idempotency key of the request was used before. */
  predicate IsNew(s: State, r: CreateRequest) {
    r.id !in s.memories && (r.idempotencyKey == "" || (r.scope, r.idempotencyKey) !in s.creates)
  }

  /** The request was made before under its idempotency key, with the same ID and everything but the time the same. */
  predicate RepeatsCreate(s: State, r: CreateRequest) {
    && r.idempotencyKey != "" && (r.scope, r.idempotencyKey) in s.creates && r.id in s.memories
    && s.creates[(r.scope, r.idempotencyKey)] == CreateRecord(r.id, Some(r.(now := ZERO_TIME)), false)
  }

  /** The state after a new request: its record, sources and first revision, and the other memories. */
  ghost predicate Stores(s: State, s': State, r: CreateRequest) {
    && s'.memories.Keys == s.memories.Keys + {r.id} && SaysRequest(s'.memories[r.id], r)
    && s'.sources == s.sources[r.id := r.sources] && s'.embeddings == s.embeddings
    && Logs(s, s', r.id, CreateAction, r.actor, r.reason, r.now)
    && (if r.status == Active then
          OthersAfter(s, s', Winner(r.id, r.scope, r.kind, r.key, r.actor, r.reason, r.now))
        else forall k :: k in s.memories ==> SameMemory(s, s', k))
  }

  lemma ActiveStores(s: State, r: CreateRequest)
    requires Keyed(s) && r.id !in s.memories && r.status == Active
    ensures Stores(s, Created(s, r), r)
  {
    var m, w := NewMemory(r), Winner(r.id, r.scope, r.kind, r.key, r.actor, r.reason, r.now);
    var cleared := Supersede(s, m, r.actor, r.reason, r.now);
    SupersedeOthers(s, m, r.actor, r.reason, r.now);
    PutKeepsOthers(s, cleared, m, CreateAction, w, Created(s, r));
    assert RevisionsOf(cleared, r.id) == RevisionsOf(s, r.id);
  }

  lemma PlainStores(s: State, r: CreateRequest)
    requires r.id !in s.memories && r.status != Active
    ensures Stores(s, Created(s, r), r)
  {
  }

  /**
   A valid and new request stores a record that says what the request said, with its sources and a first revision,
   and its rivals retire if it is active. Any other request changes nothing, and succeeds only as a replay.
   */
  lemma CreateStores(env: Env, s: State, r: CreateRequest)
    requires Keyed(s)
    ensures var (s', result) := Create(env, s, r);
            if ValidCreate(r, env.limits) && IsNew(s, r) then
              Stores(s, s', r) && result == Ok(s'.memories[r.id])
            else
              && s' == s && (result.Ok? <==> ValidCreate(r, env.limits) && RepeatsCreate(s, r))
              && (result.Ok? ==> result.value == s.memories[r.id])
              && (result.Err? ==> result.error == if ValidCreate(r, env.limits) then Conflict else InvalidMemory)
  {
    if ValidCreate(r, env.limits) && IsNew(s, r) {
      if r.status == Active {
        ActiveStores(s, r);
      } else {
        PlainStores(s, r);
      }
    }
  }

  // ---- erasure and embeddings ---------------------------------------------------------------------

  /**
   Erasure succeeds if and only if it addresses the memory, which becomes inactive and empty under its next version;
   its sources and embeddings are gone, every snapshot in its history is empty, and its creation cannot be replayed.
   No other memory, embedding or creation changes.
   */
  lemma EraseStores(env: Env, s: State, c: VersionedCommand)
    requires Keyed(s)
    ensures var (s', result) := Erase(env, s, c);
            if ValidCommand(c, env.limits) && Addresses(s, c) then
              && c.id in s'.memories && result == Ok(s'.memories[c.id]) && c.id in s'.revisions && c.id in s.revisions
              && s'.memories[c.id] == s.memories[c.id].(content := "", status := Inactive, updatedAt := c.now,
                                                        version := c.expectedVersion + 1)
              && s'.sources == s.sources[c.id := []] && (forall k :: k != c.id ==> SameMemory(s, s', k))
              && (forall k :: k in s'.embeddings <==> k in s.embeddings && k.0 != c.id)
              && (forall k :: k in s'.embeddings ==> s'.embeddings[k] == s.embeddings[k])
              && s'.creates.Keys == s.creates.Keys
              && (forall k :: k in s.creates ==>
                    s'.creates[k] == if s.creates[k].id == c.id then CreateRecord(c.id, None, true) else s.creates[k])
              && |s'.revisions[c.id]| == |s.revisions[c.id]| + 1
              && s'.revisions[c.id][|s.revisions[c.id]|] ==
                 Revision(c.id, c.expectedVersion + 1, EraseAction, c.actor, c.reason, s'.memories[c.id], true, c.now)
              && forall i :: 0 <= i < |s.revisions[c.id]| ==>
                   var was := s.revisions[c.id][i];
                   s'.revisions[c.id][i] == was.(contentErased := true, snapshot := was.snapshot.(content := ""))
            else (s', result) == (s, Err(Refusal(env, s, c, ValidCommand(c, env.limits))))
  {
  }

  /** An embedding is stored if and only if it is valid and made for the content of an active memory of its scope. */
  lemma EmbeddingStored(env: Env, s: State, r: PutEmbeddingRequest)
    ensures var (s', ok) := PutEmbedding(env, s, r);
            && (ok <==> && ValidPut(r, env.limits) && r.memoryID in s.memories
                        && s.memories[r.memoryID].scope == r.scope && s.memories[r.memoryID].status == Active
                        && env.hash(s.memories[r.memoryID].content) == r.contentHash)
            && s' == s.(embeddings := s'.embeddings)
            && s'.embeddings == if ok then s.embeddings[(r.memoryID, r.profileID) :=
                                                          Embedding(r.contentHash, r.dimensions, r.vector)]
                                else s.embeddings
  {
  }

  // ---- what was written last stays ----------------------------------------------------------------

  /** What a memory says, as a creation or a correction words it. */
  datatype Wording = Wording(content: string, validFrom: Time, validUntil: Time, importance: int, confidence: real)

  function WordingOf(m: Memory): Wording {
    Wording(m.content, m.validFrom, m.validUntil, m.importance, m.confidence)
  }

  /** The command successfully corrects or erases the memory. */
  predicate Rewords(env: Env, s: State, c: Command, id: string) {
    && Succeeds(env, s, c)
    && ((c.CorrectCommand? && c.correct.command.id == id) || (c.EraseCommand? && c.command.id == id))
  }

  predicate NeverReworded(env: Env, s: State, cs: seq<Command>, id: string)
    decreases cs
  {
    cs != [] ==> !Rewords(env, s, cs[0], id) && NeverReworded(env, Apply(env, s, cs[0]), cs[1..], id)
  }

  predicate SameWording(s: State, s': State, id: string)
    requires id in s.memories
  {
    id in s'.memories && WordingOf(s'.memories[id]) == WordingOf(s.memories[id])
  }

  lemma CreateKeepsWording(env: Env, s: State, r: CreateRequest, id: string)
    requires Keyed(s) && id in s.memories
    ensures SameWording(s, Create(env, s, r).0, id)
  {
    CreateStores(env, s, r);
    if ValidCreate(r, env.limits) && IsNew(s, r) && r.status == Active {
      assert OtherAfter(s, Create(env, s, r).0, id, Winner(r.id, r.scope, r.kind, r.key, r.actor, r.reason, r.now));
    }
  }

  lemma ActivateKeepsWording(env: Env, s: State, c: VersionedCommand, id: string)
    requires Keyed(s) && id in s.memories
    ensures SameWording(s, Activate(env, s, c).0, id)
  {
    ActivateStores(env, s, c);
    if Activate(env, s, c).1.Ok? && id != c.id {
      var m := s.memories[c.id];
      assert OtherAfter(s, Activate(env, s, c).0, id, Winner(c.id, m.scope, m.kind, m.key, c.actor, c.reason, c.now));
    }
  }

  lemma WordingStep(env: Env, s: State, c: Command, id: string)
    requires Keyed(s) && id in s.memories && !Rewords(env, s, c, id)
    ensures SameWording(s, Apply(env, s, c), id)
  {
    match c
    case CreateCommand(r) => CreateKeepsWording(env, s, r, id);
    case ActivateCommand(v) => ActivateKeepsWording(env, s, v, id);
    case CorrectCommand(r) => CorrectStores(env, s, r);
    case DismissCommand(v) => DeactivateStores(env, s, v, Candidate, DismissAction);
    case ForgetCommand(v) => DeactivateStores(env, s, v, Active, ForgetAction);
    case EraseCommand(v) => EraseStores(env, s, v);
    case EmbedCommand(r) => EmbeddingStored(env, s, r);
  }

  lemma {:induction false} WordingStays(env: Env, s: State, cs: seq<Command>, id: string)
    requires Sound(s) && id in s.memories && NeverReworded(env, s, cs, id)
    ensures id in Exec(env, s, cs).memories && WordingOf(Exec(env, s, cs).memories[id]) == WordingOf(s.memories[id])
    decreases cs
  {
    if cs != [] {
      SoundKeyed(s);
      WordingStep(env, s, cs[0], id);
      SoundStep(env, s, cs[0]);
      WordingStays(env, Apply(env, s, cs[0]), cs[1..], id);
    }
  }

  /** A corrected memory says what the correction said, whatever else happens, until it is corrected or erased again. */
  lemma CorrectionStays(env: Env, s: State, r: CorrectRequest, cs: seq<Command>)
    requires Sound(s) && Correct(env, s, r).1.Ok? && NeverReworded(env, Correct(env, s, r).0, cs, r.command.id)
    ensures var t := Exec(env, Correct(env, s, r).0, cs);
            && r.command.id in t.memories
            && WordingOf(t.memories[r.command.id])
               == Wording(r.content, r.validFrom, r.validUntil, r.importance, r.confidence)
  {
    SoundKeyed(s);
    CorrectStores(env, s, r);
    SoundStep(env, s, CorrectCommand(r));
    WordingStays(env, Correct(env, s, r).0, cs, r.command.id);
  }

  /** A created memory says what its creation said, whatever else happens, until it is corrected or erased. */
  lemma CreationStays(env: Env, s: State, r: CreateRequest, cs: seq<Command>)
    requires Sound(s) && ValidCreate(r, env.limits) && IsNew(s, r) && NeverReworded(env, Create(env, s, r).0, cs, r.id)
    ensures var t := Exec(env, Create(env, s, r).0, cs);
            && r.id in t.memories
            && WordingOf(t.memories[r.id]) == Wording(r.content, r.validFrom, r.validUntil, r.importance, r.confidence)
  {
    SoundKeyed(s);
    CreateStores(env, s, r);
    SoundStep(env, s, CreateCommand(r));
    WordingStays(env, Create(env, s, r).0, cs, r.id);
  }

  // ---- limits -------------------------------------------------------------------------------------

  /** The record respects the limits of the store. */
  predicate Limited(l: Limits, m: Memory) {
    && |m.id| == 36 && m.key != "" && |m.key| <= l.maxKeyRunes && |m.content| <= l.maxContentRunes
    && '\0' !in m.content && 0 <= m.importance <= 100 && 0.0 <= m.confidence <= 1.0
    && (m.validUntil == ZERO_TIME || m.validFrom < m.validUntil)
    && |m.createdBy| <= l.maxMetadataRunes && |m.sourceAgentID| <= l.maxMetadataRunes
    && |m.idempotencyKey| <= l.maxMetadataRunes
    && m.kind in {Fact, Decision, Constraint, Lesson} && m.status in {Candidate, Active, Inactive}
  }

  predicate AllLimited(l: Limits, s: State) {
    && (forall id :: id in s.memories ==> Limited(l, s.memories[id]))
    && (forall id :: id in s.sources ==> |s.sources[id]| <= l.maxSourcesPerMemory)
  }

  lemma CreateLimited(env: Env, s: State, r: CreateRequest)
    requires Keyed(s) && AllLimited(env.limits, s)
    ensures AllLimited(env.limits, Create(env, s, r).0)
  {
    CreateStores(env, s, r);
    var s' := Create(env, s, r).0;
    if ValidCreate(r, env.limits) && IsNew(s, r) {
      forall id | id in s'.memories ensures Limited(env.limits, s'.memories[id]) {
        if id in s.memories {
          assert Limited(env.limits, s.memories[id]);
          if r.status == Active {
            assert OtherAfter(s, s', id, Winner(r.id, r.scope, r.kind, r.key, r.actor, r.reason, r.now));
          }
        }
      }
    }
  }

  lemma ActivateLimited(env: Env, s: State, c: VersionedCommand)
    requires Keyed(s) && AllLimited(env.limits, s)
    ensures AllLimited(env.limits, Activate(env, s, c).0)
  {
    ActivateStores(env, s, c);
    var s' := Activate(env, s, c).0;
    assert s'.sources == s.sources;
    if Activate(env, s, c).1.Ok? {
      var m := s.memories[c.id];
      forall id | id in s'.memories ensures Limited(env.limits, s'.memories[id]) {
        assert Limited(env.limits, s.memories[id]);
        if id != c.id {
          assert OtherAfter(s, s', id, Winner(c.id, m.scope, m.kind, m.key, c.actor, c.reason, c.now));
        }
      }
    }
  }

  /** A command that changes one memory keeps the limits if its new record and sources do. */
  lemma OneLimited(l: Limits, s: State, s': State, id: string)
    requires AllLimited(l, s) && forall k :: k != id ==> SameMemory(s, s', k)
    requires id in s'.memories ==> Limited(l, s'.memories[id])
    requires id in s'.sources ==> |s'.sources[id]| <= l.maxSourcesPerMemory
    ensures AllLimited(l, s')
  {
    forall k | k in s'.memories ensures Limited(l, s'.memories[k]) {
      assert k != id ==> SameMemory(s, s', k);
    }
    forall k | k in s'.sources ensures |s'.sources[k]| <= l.maxSourcesPerMemory {
      assert k != id ==> SameMemory(s, s', k);
    }
  }

  lemma CorrectLimited(env: Env, s: State, r: CorrectRequest)
    requires Keyed(s) && AllLimited(env.limits, s)
    ensures AllLimited(env.limits, Correct(env, s, r).0)
  {
    CorrectStores(env, s, r);
    if Correct(env, s, r).1.Ok? {
      assert Limited(env.limits, s.memories[r.command.id]);
      OneLimited(env.limits, s, Correct(env, s, r).0, r.command.id);
    }
  }

  lemma DeactivateLimited(env: Env, s: State, c: VersionedCommand, from: Status, action: Action)
    requires Keyed(s) && AllLimited(env.limits, s)
    ensures AllLimited(env.limits, Deactivate(env, s, c, from, action).0)
  {
    DeactivateStores(env, s, c, from, action);
    if Deactivate(env, s, c, from, action).1.Ok? {
      assert Limited(env.limits, s.memories[c.id]);
      OneLimited(env.limits, s, Deactivate(env, s, c, from, action).0, c.id);
    }
  }

  lemma EraseLimited(env: Env, s: State, c: VersionedCommand)
    requires Keyed(s) && AllLimited(env.limits, s) && env.limits.Valid()
    ensures AllLimited(env.limits, Erase(env, s, c).0)
  {
    EraseStores(env, s, c);
    if Erase(env, s, c).1.Ok? {
      assert Limited(env.limits, s.memories[c.id]);
      OneLimited(env.limits, s, Erase(env, s, c).0, c.id);
    }
  }

  lemma LimitedStep(env: Env, s: State, c: Command)
    requires Keyed(s) && AllLimited(env.limits, s) && env.limits.Valid()
    ensures AllLimited(env.limits, Apply(env, s, c))
  {
    match c
    case CreateCommand(r) => CreateLimited(env, s, r);
    case ActivateCommand(v) => ActivateLimited(env, s, v);
    case CorrectCommand(r) => CorrectLimited(env, s, r);
    case DismissCommand(v) => DeactivateLimited(env, s, v, Candidate, DismissAction);
    case ForgetCommand(v) => DeactivateLimited(env, s, v, Active, ForgetAction);
    case EraseCommand(v) => EraseLimited(env, s, v);
    case EmbedCommand(r) => EmbeddingStored(env, s, r);
  }

  lemma {:induction false} LimitsKept(env: Env, s: State, cs: seq<Command>)
    requires Sound(s) && AllLimited(env.limits, s) && env.limits.Valid()
    ensures AllLimited(env.limits, Exec(env, s, cs))
    decreases cs
  {
    if cs != [] {
      SoundKeyed(s);
      LimitedStep(env, s, cs[0]);
      SoundStep(env, s, cs[0]);
      LimitsKept(env, Apply(env, s, cs[0]), cs[1..]);
    }
  }
}
