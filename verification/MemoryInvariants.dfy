/**
 What every sequence of store commands keeps: one active memory per conflict key, gap-free
 revision histories, identities that never change, and the permanence of erasure.
 */
module MemoryInvariants {
  import opened Wrappers
  import opened MemoryTypes
  import opened MemoryModel

  /** Revisions are numbered 1..version and the last snapshot is the current record. */
  predicate Numbered(rs: seq<Revision>, m: Memory) {
    && |rs| == m.version >= 1
    && (forall i :: 0 <= i < |rs| ==> rs[i].version == i + 1 && rs[i].memoryID == m.id)
    && rs[|rs| - 1].snapshot == m
  }

  predicate Recorded(s: State, id: string)
    requires id in s.memories
  {
    s.memories[id].id == id && id in s.revisions && Numbered(s.revisions[id], s.memories[id])
  }

  predicate Rivals(a: Memory, b: Memory) {
    a.status == Active && b.status == Active && SameConflictKey(a, b)
  }

  /** Two different active memories never share scope, kind and key. */
  predicate OneActive(memories: map<string, Memory>) {
    forall a, b :: a in memories && b in memories && a != b ==> !Rivals(memories[a], memories[b])
  }

  /** A memory created under an idempotency key is named by its record. */
  predicate KeyOk(creates: map<(Scope, string), CreateRecord>, m: Memory) {
    m.idempotencyKey != "" ==>
      (m.scope, m.idempotencyKey) in creates && creates[(m.scope, m.idempotencyKey)].id == m.id
  }

  predicate CreatesOk(memories: map<string, Memory>, creates: map<(Scope, string), CreateRecord>) {
    forall id :: id in memories ==> KeyOk(creates, memories[id])
  }

  predicate AllRecorded(s: State) {
    && (forall id :: id in s.memories ==> Recorded(s, id))
    && (forall id :: id in s.revisions ==> id in s.memories)
  }

  predicate Sound(s: State) {
    AllRecorded(s) && OneActive(s.memories) && CreatesOk(s.memories, s.creates)
  }

  // ---- how a record may change --------------------------------------------------------------------------

  predicate SameIdentity(m: Memory, m': Memory) {
    && m'.id == m.id && m'.scope == m.scope && m'.kind == m.kind && m'.key == m.key
    && m'.idempotencyKey == m.idempotencyKey
  }

  /** Identity is fixed, versions only grow, inactive is final, and a change always takes a new version. */
  predicate RecordEvolves(m: Memory, m': Memory) {
    && SameIdentity(m, m') && m'.version >= m.version
    && (m.status == Inactive ==> m'.status == Inactive)
    && (m'.version == m.version ==> m' == m)
  }

  lemma SupersedeRecord(s: State, target: Memory, actor: string, reason: string, now: Time, id: string)
    requires id in s.memories && Recorded(s, id)
    ensures var s' := Supersede(s, target, actor, reason, now);
            Recorded(s', id) && RecordEvolves(s.memories[id], s'.memories[id])
  {
  }

  /** After supersession nothing active but the target itself holds the target's conflict key. */
  lemma SupersedeClears(s: State, target: Memory, actor: string, reason: string, now: Time)
    requires OneActive(s.memories) && forall id :: id in s.memories ==> s.memories[id].id == id
    ensures var ms := Supersede(s, target, actor, reason, now).memories;
            OneActive(ms) && Free(ms, target.(status := Active))
  {
    var ms := Supersede(s, target, actor, reason, now).memories;
    forall a, b | a in ms && b in ms && a != b
      ensures !Rivals(ms[a], ms[b])
    {
      assert !Rivals(s.memories[a], s.memories[b]);
    }
  }

  lemma PutRecord(s: State, m: Memory, action: Action, actor: string, reason: string, now: Time, erased: bool)
    requires |RevisionsOf(s, m.id)| + 1 == m.version
    requires forall i :: 0 <= i < m.version - 1 ==>
               RevisionsOf(s, m.id)[i].version == i + 1 && RevisionsOf(s, m.id)[i].memoryID == m.id
    ensures Recorded(Put(s, m, action, actor, reason, now, erased), m.id)
  {
  }

  lemma PutOthers(s: State, m: Memory, action: Action, actor: string, reason: string, now: Time, erased: bool,
                  id: string)
    requires id in s.memories && Recorded(s, id) && id != m.id
    ensures Recorded(Put(s, m, action, actor, reason, now, erased), id)
  {
  }

  predicate Free(memories: map<string, Memory>, m: Memory) {
    forall id :: id in memories && id != m.id ==> !Rivals(memories[id], m)
  }

  /** Storing a record whose conflict key is free keeps one active memory per key. */
  lemma PutOneActive(memories: map<string, Memory>, m: Memory)
    requires OneActive(memories) && Free(memories, m)
    ensures OneActive(memories[m.id := m])
  {
  }

  lemma CreatesKept(memories: map<string, Memory>, memories': map<string, Memory>,
                    creates: map<(Scope, string), CreateRecord>)
    requires CreatesOk(memories, creates)
    requires forall id :: id in memories' ==> id in memories && SameIdentity(memories[id], memories'[id])
    ensures CreatesOk(memories', creates)
  {
    forall id | id in memories'
      ensures KeyOk(creates, memories'[id])
    {
      assert KeyOk(creates, memories[id]);
    }
  }

  lemma PutAllRecorded(s: State, m: Memory, action: Action, actor: string, reason: string, now: Time, erased: bool)
    requires AllRecorded(s) && m.version == (if m.id in s.memories then s.memories[m.id].version + 1 else 1)
    ensures AllRecorded(Put(s, m, action, actor, reason, now, erased))
  {
    var s' := Put(s, m, action, actor, reason, now, erased);
    if m.id in s.memories {
      assert Recorded(s, m.id);
    }
    PutRecord(s, m, action, actor, reason, now, erased);
    forall id | id in s'.memories
      ensures Recorded(s', id)
    {
      if id != m.id {
        PutOthers(s, m, action, actor, reason, now, erased, id);
      }
    }
  }

  /** The new version of an existing record keeps everything in order. */
  lemma PutNext(s: State, m: Memory, action: Action, actor: string, reason: string, now: Time, erased: bool)
    requires Sound(s) && m.id in s.memories && SameIdentity(s.memories[m.id], m)
    requires m.version == s.memories[m.id].version + 1
    requires Free(s.memories, m)
    ensures Sound(Put(s, m, action, actor, reason, now, erased))
  {
    PutAllRecorded(s, m, action, actor, reason, now, erased);
    PutOneActive(s.memories, m);
    CreatesKept(s.memories, s.memories[m.id := m], s.creates);
  }

  lemma SupersedeRecords(s: State, target: Memory, actor: string, reason: string, now: Time)
    requires AllRecorded(s)
    ensures var s' := Supersede(s, target, actor, reason, now);
            AllRecorded(s') && forall id :: id in s.memories ==> RecordEvolves(s.memories[id], s'.memories[id])
  {
    var s' := Supersede(s, target, actor, reason, now);
    forall id | id in s'.memories
      ensures Recorded(s', id) && RecordEvolves(s.memories[id], s'.memories[id])
    {
      SupersedeRecord(s, target, actor, reason, now, id);
    }
  }

  lemma SupersedeOk(s: State, target: Memory, actor: string, reason: string, now: Time)
    requires Sound(s)
    ensures var s' := Supersede(s, target, actor, reason, now);
            && Sound(s') && Free(s'.memories, target.(status := Active))
            && (forall id :: id in s.memories ==> RecordEvolves(s.memories[id], s'.memories[id]))
  {
    var s' := Supersede(s, target, actor, reason, now);
    SupersedeRecords(s, target, actor, reason, now);
    assert forall id :: id in s.memories ==> s.memories[id].id == id by {
      assert forall id :: id in s.memories ==> Recorded(s, id);
    }
    SupersedeClears(s, target, actor, reason, now);
    CreatesKept(s.memories, s'.memories, s.creates);
  }

  // ---- every command keeps Sound --------------------------------------------------------------------------------

  lemma CreatedOk(s: State, r: CreateRequest)
    requires Sound(s) && r.id !in s.memories
    requires r.idempotencyKey != "" ==> (r.scope, r.idempotencyKey) !in s.creates
    ensures Sound(Created(s, r))
  {
    var m := NewMemory(r);
    var cleared := if m.status == Active then Supersede(s, m, r.actor, r.reason, r.now) else s;
    if m.status == Active {
      SupersedeOk(s, m, r.actor, r.reason, r.now);
      assert m.(status := Active) == m;
    }
    assert Sound(cleared) && Free(cleared.memories, m) && r.id !in cleared.memories && cleared.creates == s.creates;
    AddOk(cleared, m, r);
    assert Created(s, r).memories == Added(cleared, m, r).memories;
  }

  /** A cleared state with one record added. */
  function Added(s: State, m: Memory, r: CreateRequest): State {
    Put(s, m, CreateAction, r.actor, r.reason, r.now, false)
    .(creates := if r.idempotencyKey == "" then s.creates
                 else s.creates[(r.scope, r.idempotencyKey) := CreateRecord(r.id, Some(FingerprintOf(r)), false)])
  }

  lemma AddOk(s: State, m: Memory, r: CreateRequest)
    requires Sound(s) && m == NewMemory(r) && m.id !in s.memories && Free(s.memories, m)
    requires r.idempotencyKey != "" ==> (r.scope, r.idempotencyKey) !in s.creates
    ensures Sound(Added(s, m, r))
  {
    PutAllRecorded(s, m, CreateAction, r.actor, r.reason, r.now, false);
    RecordsOnly(Put(s, m, CreateAction, r.actor, r.reason, r.now, false), Added(s, m, r));
    PutOneActive(s.memories, m);
    if r.idempotencyKey == "" {
      AddUnkeyed(s.memories, s.creates, m);
    } else {
      AddKeyed(s.memories, s.creates, m, CreateRecord(r.id, Some(FingerprintOf(r)), false));
    }
  }

  lemma RecordsOnly(s: State, s': State)
    requires AllRecorded(s) && s'.memories == s.memories && s'.revisions == s.revisions
    ensures AllRecorded(s')
  {
    forall id | id in s'.memories
      ensures Recorded(s', id)
    {
      assert Recorded(s, id);
    }
  }

  lemma AddUnkeyed(memories: map<string, Memory>, creates: map<(Scope, string), CreateRecord>, m: Memory)
    requires CreatesOk(memories, creates) && m.id !in memories && m.idempotencyKey == ""
    ensures CreatesOk(memories[m.id := m], creates)
  {
  }

  lemma AddKeyed(memories: map<string, Memory>, creates: map<(Scope, string), CreateRecord>, m: Memory, r: CreateRecord)
    requires CreatesOk(memories, creates) && m.id !in memories && (m.scope, m.idempotencyKey) !in creates
    requires r.id == m.id
    ensures CreatesOk(memories[m.id := m], creates[(m.scope, m.idempotencyKey) := r])
  {
    var key := (m.scope, m.idempotencyKey);
    var memories', creates' := memories[m.id := m], creates[key := r];
    forall id | id in memories'
      ensures KeyOk(creates', memories'[id])
    {
      if id != m.id {
        assert KeyOk(creates, memories[id]);
      }
    }
  }

  lemma ActivateOk(env: Env, s: State, c: VersionedCommand)
    requires Sound(s)
    ensures Sound(Activate(env, s, c).0)
  {
    if Activate(env, s, c).1.Ok? {
      var m := s.memories[c.id];
      assert Recorded(s, c.id);
      SupersedeOk(s, m, c.actor, c.reason, c.now);
      var s' := Supersede(s, m, c.actor, c.reason, c.now);
      assert s'.memories[c.id] == m;
      PutNext(s', Next(m, Active, c.now), ActivateAction, c.actor, c.reason, c.now, false);
    }
  }

  lemma ErasedRecord(s: State, m: Memory, c: VersionedCommand)
    requires m.id in s.memories && s.memories[m.id] == m && Recorded(s, m.id)
    ensures Recorded(Erased(s, m, c), m.id)
  {
    var gone := Next(m, Inactive, c.now).(content := "");
    assert Erased(s, m, c).revisions[m.id] ==
           EraseRevisions(s.revisions[m.id]) + [RevisionFor(gone, EraseAction, c.actor, c.reason, c.now, true)];
  }

  lemma ErasedOk(s: State, m: Memory, c: VersionedCommand)
    requires Sound(s) && m.id in s.memories && s.memories[m.id] == m
    ensures Sound(Erased(s, m, c))
  {
    var gone := Next(m, Inactive, c.now).(content := "");
    var s' := Erased(s, m, c);
    ErasedRecord(s, m, c);
    forall id | id in s'.memories
      ensures Recorded(s', id)
    {
      assert Recorded(s, id);
    }
    PutOneActive(s.memories, gone);
    CreatesKept(s.memories, s.memories[m.id := gone], s.creates);
    EraseCreatesOk(s'.memories, s.creates, m.id);
  }

  lemma EraseCreatesOk(memories: map<string, Memory>, creates: map<(Scope, string), CreateRecord>, id: string)
    requires CreatesOk(memories, creates)
    ensures CreatesOk(memories, EraseCreates(creates, id))
  {
    var creates' := EraseCreates(creates, id);
    forall i | i in memories
      ensures KeyOk(creates', memories[i])
    {
      assert KeyOk(creates, memories[i]);
    }
  }

  lemma CreateOk(env: Env, s: State, r: CreateRequest)
    requires Sound(s)
    ensures Sound(Create(env, s, r).0)
  {
    if Create(env, s, r).0 != s {
      CreatedOk(s, r);
    }
  }

  lemma EraseOk(env: Env, s: State, c: VersionedCommand)
    requires Sound(s)
    ensures Sound(Erase(env, s, c).0)
  {
    if Target(s, c).Ok? {
      assert Recorded(s, c.id);
      ErasedOk(s, s.memories[c.id], c);
    }
  }

  lemma EmbedOk(env: Env, s: State, r: PutEmbeddingRequest)
    requires Sound(s)
    ensures Sound(PutEmbedding(env, s, r).0)
  {
    SameRecords(s, PutEmbedding(env, s, r).0);
  }

  lemma SoundStep(env: Env, s: State, c: Command)
    requires Sound(s)
    ensures Sound(Apply(env, s, c))
  {
    match c
    case CreateCommand(r) => CreateOk(env, s, r);
    case ActivateCommand(v) => ActivateOk(env, s, v);
    case CorrectCommand(r) => CorrectOk(env, s, r);
    case DismissCommand(v) => DeactivateOk(env, s, v, Candidate, DismissAction);
    case ForgetCommand(v) => DeactivateOk(env, s, v, Active, ForgetAction);
    case EraseCommand(v) => EraseOk(env, s, v);
    case EmbedCommand(r) => EmbedOk(env, s, r);
  }

  lemma SameRecords(s: State, s': State)
    requires Sound(s) && s'.memories == s.memories && s'.revisions == s.revisions && s'.creates == s.creates
    ensures Sound(s')
  {
    forall id | id in s'.memories
      ensures Recorded(s', id)
    {
      assert Recorded(s, id);
    }
  }

  lemma DeactivateOk(env: Env, s: State, c: VersionedCommand, from: Status, action: Action)
    requires Sound(s)
    ensures Sound(Deactivate(env, s, c, from, action).0)
  {
    if Deactivate(env, s, c, from, action).1.Ok? {
      assert Recorded(s, c.id);
      PutNext(s, Next(s.memories[c.id], Inactive, c.now), action, c.actor, c.reason, c.now, false);
    }
  }

  lemma CorrectOk(env: Env, s: State, r: CorrectRequest)
    requires Sound(s)
    ensures Sound(Correct(env, s, r).0)
  {
    if Correct(env, s, r).1.Ok? {
      var c := r.command;
      var m := s.memories[c.id];
      assert Recorded(s, c.id);
      assert Free(s.memories, Corrected(m, r)) by {
        forall id | id in s.memories && id != m.id
          ensures !Rivals(s.memories[id], Corrected(m, r))
        {
          assert !Rivals(s.memories[id], s.memories[c.id]);
        }
      }
      PutNext(s, Corrected(m, r), CorrectAction, c.actor, c.reason, c.now, false);
      SameRecords(Put(s, Corrected(m, r), CorrectAction, c.actor, c.reason, c.now, false), Correct(env, s, r).0);
    }
  }

  lemma {:induction false} SoundExec(env: Env, s: State, cs: seq<Command>)
    requires Sound(s)
    ensures Sound(Exec(env, s, cs))
    decreases cs
  {
    if cs != [] {
      SoundStep(env, s, cs[0]);
      SoundExec(env, Apply(env, s, cs[0]), cs[1..]);
    }
  }

  /** After any commands: one active memory per conflict key, and revisions 1..version ending in the current record. */
  lemma StoreInvariants(env: Env, cs: seq<Command>, a: string, b: string)
    requires a in Exec(env, EMPTY, cs).memories && b in Exec(env, EMPTY, cs).memories
    ensures var s := Exec(env, EMPTY, cs);
            && (a != b ==> !Rivals(s.memories[a], s.memories[b]))
            && a in s.revisions && Numbered(s.revisions[a], s.memories[a])
  {
    SoundExec(env, EMPTY, cs);
    assert Recorded(Exec(env, EMPTY, cs), a);
  }
}
