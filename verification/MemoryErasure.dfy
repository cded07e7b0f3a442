/** What later commands can never undo: versions, inactivity, erasure; and what a replayed create returns. */
module MemoryErasure {
  import opened Wrappers
  import opened MemoryTypes
  import opened MemoryModel
  import opened MemoryInvariants

  // ---- records over time ----------------------------------------------------------------------------------

  /** Earlier revisions stay, at most losing their content; a change appends exactly the missing versions. */
  predicate HistoryEvolves(rs: seq<Revision>, rs': seq<Revision>) {
    && |rs| <= |rs'|
    && forall i :: 0 <= i < |rs| ==> rs'[i] == rs[i] || rs'[i] == EraseRevision(rs[i])
  }

  predicate Evolves(s: State, s': State, id: string)
    requires id in s.memories && id in s.revisions
  {
    && id in s'.memories && id in s'.revisions
    && RecordEvolves(s.memories[id], s'.memories[id]) && HistoryEvolves(s.revisions[id], s'.revisions[id])
  }

  lemma SupersedeEvolves(s: State, target: Memory, actor: string, reason: string, now: Time, id: string)
    requires id in s.memories && Recorded(s, id)
    ensures Evolves(s, Supersede(s, target, actor, reason, now), id)
  {
  }

  lemma PutEvolves(s: State, m: Memory, action: Action, actor: string, reason: string, now: Time, erased: bool,
                   id: string)
    requires id in s.memories && Recorded(s, id)
    requires id == m.id ==> RecordEvolves(s.memories[id], m)
    ensures Evolves(s, Put(s, m, action, actor, reason, now, erased), id)
  {
  }

  lemma EvolvesTransitive(a: State, b: State, c: State, id: string)
    requires id in a.memories && id in a.revisions && Evolves(a, b, id) && Evolves(b, c, id)
    ensures Evolves(a, c, id)
  {
    forall i | 0 <= i < |a.revisions[id]|
      ensures c.revisions[id][i] == a.revisions[id][i] || c.revisions[id][i] == EraseRevision(a.revisions[id][i])
    {
      var r := a.revisions[id][i];
      assert b.revisions[id][i] == r || b.revisions[id][i] == EraseRevision(r);
      assert EraseRevision(EraseRevision(r)) == EraseRevision(r);
    }
  }

  lemma CreateEvolves(env: Env, s: State, r: CreateRequest, id: string)
    requires id in s.memories && Recorded(s, id)
    ensures Evolves(s, Create(env, s, r).0, id)
  {
    if Create(env, s, r).0 != s {
      var m := NewMemory(r);
      if m.status == Active {
        var cleared := Supersede(s, m, r.actor, r.reason, r.now);
        SupersedeEvolves(s, m, r.actor, r.reason, r.now, id);
        SupersedeRecord(s, m, r.actor, r.reason, r.now, id);
        PutEvolves(cleared, m, CreateAction, r.actor, r.reason, r.now, false, id);
        EvolvesTransitive(s, cleared, Put(cleared, m, CreateAction, r.actor, r.reason, r.now, false), id);
      } else {
        PutEvolves(s, m, CreateAction, r.actor, r.reason, r.now, false, id);
      }
    }
  }

  lemma ActivateEvolves(env: Env, s: State, c: VersionedCommand, id: string)
    requires id in s.memories && Recorded(s, id) && (c.id in s.memories ==> s.memories[c.id].id == c.id)
    ensures Evolves(s, Activate(env, s, c).0, id)
  {
    if Activate(env, s, c).1.Ok? {
      var m := s.memories[c.id];
      var cleared := Supersede(s, m, c.actor, c.reason, c.now);
      SupersedeEvolves(s, m, c.actor, c.reason, c.now, id);
      SupersedeRecord(s, m, c.actor, c.reason, c.now, id);
      PutEvolves(cleared, Next(m, Active, c.now), ActivateAction, c.actor, c.reason, c.now, false, id);
      EvolvesTransitive(s, cleared, Activate(env, s, c).0, id);
    }
  }

  lemma DeactivateEvolves(env: Env, s: State, c: VersionedCommand, from: Status, action: Action, id: string)
    requires id in s.memories && Recorded(s, id) && (c.id in s.memories ==> s.memories[c.id].id == c.id)
    ensures Evolves(s, Deactivate(env, s, c, from, action).0, id)
  {
    if Deactivate(env, s, c, from, action).1.Ok? {
      PutEvolves(s, Next(s.memories[c.id], Inactive, c.now), action, c.actor, c.reason, c.now, false, id);
    }
  }

  lemma CorrectEvolves(env: Env, s: State, r: CorrectRequest, id: string)
    requires id in s.memories && Recorded(s, id)
    requires r.command.id in s.memories ==> s.memories[r.command.id].id == r.command.id
    ensures Evolves(s, Correct(env, s, r).0, id)
  {
    if Correct(env, s, r).1.Ok? {
      var c := r.command;
      PutEvolves(s, Corrected(s.memories[c.id], r), CorrectAction, c.actor, c.reason, c.now, false, id);
    }
  }

  lemma ErasedHistory(s: State, m: Memory, c: VersionedCommand)
    requires m.id in s.memories && s.memories[m.id] == m && Recorded(s, m.id)
    ensures Evolves(s, Erased(s, m, c), m.id)
    ensures var rs, rs' := s.revisions[m.id], Erased(s, m, c).revisions[m.id];
            |rs'| == |rs| + 1 && forall i :: 0 <= i < |rs| ==> rs'[i] == EraseRevision(rs[i])
  {
    var gone := Next(m, Inactive, c.now).(content := "");
    var rs, rs' := s.revisions[m.id], Erased(s, m, c).revisions[m.id];
    assert rs' == EraseRevisions(rs) + [RevisionFor(gone, EraseAction, c.actor, c.reason, c.now, true)];
  }

  lemma ErasedOther(s: State, m: Memory, c: VersionedCommand, id: string)
    requires id in s.memories && Recorded(s, id) && id != m.id
    ensures Evolves(s, Erased(s, m, c), id)
  {
  }

  lemma EraseEvolves(env: Env, s: State, c: VersionedCommand, id: string)
    requires id in s.memories && Recorded(s, id) && (c.id in s.memories ==> s.memories[c.id].id == c.id)
    ensures Evolves(s, Erase(env, s, c).0, id)
  {
    if Target(s, c).Ok? {
      if id == c.id {
        ErasedHistory(s, s.memories[id], c);
      } else {
        ErasedOther(s, s.memories[c.id], c, id);
      }
    }
  }

  lemma EmbedEvolves(env: Env, s: State, r: PutEmbeddingRequest, id: string)
    requires id in s.memories && Recorded(s, id)
    ensures Evolves(s, PutEmbedding(env, s, r).0, id)
  {
  }

  lemma StepEvolves(env: Env, s: State, c: Command, id: string)
    requires Sound(s) && id in s.memories
    ensures id in s.revisions && Evolves(s, Apply(env, s, c), id)
  {
    assert Recorded(s, id);
    if GuardOf(c).Some? && GuardOf(c).value.id in s.memories {
      assert Recorded(s, GuardOf(c).value.id);
    }
    match c
    case CreateCommand(r) => CreateEvolves(env, s, r, id);
    case ActivateCommand(v) => ActivateEvolves(env, s, v, id);
    case CorrectCommand(r) => CorrectEvolves(env, s, r, id);
    case DismissCommand(v) => DeactivateEvolves(env, s, v, Candidate, DismissAction, id);
    case ForgetCommand(v) => DeactivateEvolves(env, s, v, Active, ForgetAction, id);
    case EraseCommand(v) => EraseEvolves(env, s, v, id);
    case EmbedCommand(r) => EmbedEvolves(env, s, r, id);
  }

  /** Over any commands a record keeps its identity, its version only grows, and inactive is final. */
  lemma {:induction false} ExecEvolves(env: Env, s: State, cs: seq<Command>, id: string)
    requires Sound(s) && id in s.memories
    ensures id in s.revisions && Evolves(s, Exec(env, s, cs), id)
    decreases cs
  {
    assert Recorded(s, id);
    if cs != [] {
      StepEvolves(env, s, cs[0], id);
      SoundStep(env, s, cs[0]);
      ExecEvolves(env, Apply(env, s, cs[0]), cs[1..], id);
      EvolvesTransitive(s, Apply(env, s, cs[0]), Exec(env, s, cs), id);
    }
  }

  // ---- one success per version --------------------------------------------------------------------------------

  predicate Bumps(s: State, s': State, g: VersionedCommand) {
    && g.id in s.memories && s.memories[g.id].version == g.expectedVersion
    && g.id in s'.memories && s'.memories[g.id].version == g.expectedVersion + 1
  }

  lemma ActivateBumps(env: Env, s: State, c: VersionedCommand)
    requires Sound(s) && Activate(env, s, c).1.Ok?
    ensures Bumps(s, Activate(env, s, c).0, c)
  {
    assert Recorded(s, c.id);
  }

  lemma CorrectBumps(env: Env, s: State, r: CorrectRequest)
    requires Sound(s) && Correct(env, s, r).1.Ok?
    ensures Bumps(s, Correct(env, s, r).0, r.command)
  {
    assert Recorded(s, r.command.id);
  }

  lemma DeactivateBumps(env: Env, s: State, c: VersionedCommand, from: Status, action: Action)
    requires Sound(s) && Deactivate(env, s, c, from, action).1.Ok?
    ensures Bumps(s, Deactivate(env, s, c, from, action).0, c)
  {
    assert Recorded(s, c.id);
  }

  lemma EraseBumps(env: Env, s: State, c: VersionedCommand)
    requires Sound(s) && Erase(env, s, c).1.Ok?
    ensures Bumps(s, Erase(env, s, c).0, c)
  {
    assert Recorded(s, c.id);
  }

  lemma SuccessBumpsVersion(env: Env, s: State, c: Command)
    requires Sound(s) && GuardOf(c).Some? && Succeeds(env, s, c)
    ensures Bumps(s, Apply(env, s, c), GuardOf(c).value)
  {
    match c
    case ActivateCommand(v) => ActivateBumps(env, s, v);
    case CorrectCommand(r) => CorrectBumps(env, s, r);
    case DismissCommand(v) => DeactivateBumps(env, s, v, Candidate, DismissAction);
    case ForgetCommand(v) => DeactivateBumps(env, s, v, Active, ForgetAction);
    case EraseCommand(v) => EraseBumps(env, s, v);
    case CreateCommand(_) =>
    case EmbedCommand(_) =>
  }

  /** At most one command per (ID, ExpectedVersion) ever succeeds, whatever else happens in between. */
  lemma OneSuccessPerVersion(env: Env, s: State, first: Command, cs: seq<Command>, second: Command)
    requires Sound(s) && GuardOf(first).Some? && GuardOf(second).Some? && Succeeds(env, s, first)
    requires GuardOf(first).value.id == GuardOf(second).value.id
    requires GuardOf(first).value.expectedVersion == GuardOf(second).value.expectedVersion
    ensures !Succeeds(env, Exec(env, Apply(env, s, first), cs), second)
  {
    var id := GuardOf(first).value.id;
    var s' := Apply(env, s, first);
    SuccessBumpsVersion(env, s, first);
    SoundStep(env, s, first);
    ExecEvolves(env, s', cs, id);
    SoundExec(env, s', cs);
    if Succeeds(env, Exec(env, s', cs), second) {
      SuccessBumpsVersion(env, Exec(env, s', cs), second);
    }
  }

  // ---- erasure ------------------------------------------------------------------------------------------------

  /** Nothing of the content up to version v is left, and nothing can bring the memory back. */
  predicate ErasedThrough(s: State, id: string, v: int) {
    && id in s.memories && s.memories[id].status == Inactive && s.memories[id].version > v
    && id in s.revisions
    && (forall i :: 0 <= i < |s.revisions[id]| && s.revisions[id][i].version <= v ==>
          s.revisions[id][i].snapshot.content == "" && s.revisions[id][i].contentErased)
    && (forall k :: k in s.embeddings ==> k.0 != id)
    && (forall k :: k in s.creates && s.creates[k].id == id ==> s.creates[k].erased)
  }

  lemma EraseErases(env: Env, s: State, c: VersionedCommand)
    requires Sound(s) && Erase(env, s, c).1.Ok?
    ensures ErasedThrough(Erase(env, s, c).0, c.id, c.expectedVersion)
  {
    assert Recorded(s, c.id);
    var m := s.memories[c.id];
    ErasedHistory(s, m, c);
    var rs, rs' := s.revisions[c.id], Erased(s, m, c).revisions[c.id];
    forall i | 0 <= i < |rs'| && rs'[i].version <= c.expectedVersion
      ensures rs'[i].snapshot.content == "" && rs'[i].contentErased
    {
      assert i < |rs| ==> rs'[i] == EraseRevision(rs[i]);
    }
  }

  lemma ErasedKeepsHistory(env: Env, s: State, c: Command, id: string, v: int)
    requires Sound(s) && ErasedThrough(s, id, v)
    ensures var s' := Apply(env, s, c);
            && id in s'.memories && s'.memories[id].status == Inactive && s'.memories[id].version > v
            && id in s'.revisions
            && (forall i :: 0 <= i < |s'.revisions[id]| && s'.revisions[id][i].version <= v ==>
                  s'.revisions[id][i].snapshot.content == "" && s'.revisions[id][i].contentErased)
  {
    var s' := Apply(env, s, c);
    StepEvolves(env, s, c, id);
    SoundStep(env, s, c);
    assert Recorded(s, id) && Recorded(s', id);
    forall i | 0 <= i < |s'.revisions[id]| && s'.revisions[id][i].version <= v
      ensures s'.revisions[id][i].snapshot.content == "" && s'.revisions[id][i].contentErased
    {
      assert s'.revisions[id][i].version == i + 1 && s.revisions[id][i].version == i + 1;
    }
  }

  lemma ErasedKeepsGone(env: Env, s: State, c: Command, id: string, v: int)
    requires ErasedThrough(s, id, v)
    ensures forall k :: k in Apply(env, s, c).embeddings ==> k.0 != id
    ensures forall k :: k in Apply(env, s, c).creates && Apply(env, s, c).creates[k].id == id ==>
                          Apply(env, s, c).creates[k].erased
  {
  }

  lemma ErasedStep(env: Env, s: State, c: Command, id: string, v: int)
    requires Sound(s) && ErasedThrough(s, id, v)
    ensures ErasedThrough(Apply(env, s, c), id, v)
  {
    ErasedKeepsHistory(env, s, c, id, v);
    ErasedKeepsGone(env, s, c, id, v);
  }

  lemma {:induction false} ErasedExec(env: Env, s: State, cs: seq<Command>, id: string, v: int)
    requires Sound(s) && ErasedThrough(s, id, v)
    ensures ErasedThrough(Exec(env, s, cs), id, v)
    decreases cs
  {
    if cs != [] {
      ErasedStep(env, s, cs[0], id, v);
      SoundStep(env, s, cs[0]);
      ErasedExec(env, Apply(env, s, cs[0]), cs[1..], id, v);
    }
  }

  /** The request would reuse the erased memory's ID, or its idempotency key in its scope. */
  predicate Reuses(m: Memory, r: CreateRequest) {
    r.id == m.id || (m.idempotencyKey != "" && r.scope == m.scope && r.idempotencyKey == m.idempotencyKey)
  }

  lemma ErasedBlocksCreate(env: Env, s: State, id: string, v: int, r: CreateRequest)
    requires Sound(s) && ErasedThrough(s, id, v) && Reuses(s.memories[id], r)
    ensures Create(env, s, r).1.Err? && Create(env, s, r).0 == s
  {
    assert Recorded(s, id) && KeyOk(s.creates, s.memories[id]);
  }

  /**
   After Erase at version v, in every later state: no revision up to v carries content, no embedding exists, the
   memory is inactive, and no Create with its ID or idempotency key succeeds - even if it is corrected later.
   */
  lemma ErasedForever(env: Env, s: State, c: VersionedCommand, cs: seq<Command>, r: CreateRequest)
    requires Sound(s) && Erase(env, s, c).1.Ok?
    requires Reuses(s.memories[c.id], r)
    ensures var s' := Exec(env, Erase(env, s, c).0, cs);
            ErasedThrough(s', c.id, c.expectedVersion) && Create(env, s', r).1.Err?
  {
    var erased := Erase(env, s, c).0;
    EraseErases(env, s, c);
    EraseOk(env, s, c);
    ErasedExec(env, erased, cs, c.id, c.expectedVersion);
    SoundExec(env, erased, cs);
    assert Recorded(s, c.id);
    EraseEvolves(env, s, c, c.id);
    ExecEvolves(env, erased, cs, c.id);
    ErasedBlocksCreate(env, Exec(env, erased, cs), c.id, c.expectedVersion, r);
  }

  // ---- idempotent create ----------------------------------------------------------------------------------------

  predicate Erases(c: Command, id: string) {
    c.EraseCommand? && c.command.id == id
  }

  lemma OthersKeepRecord(env: Env, s: State, c: Command, k: (Scope, string))
    requires k in s.creates && !c.EraseCommand?
    ensures k in Apply(env, s, c).creates && Apply(env, s, c).creates[k] == s.creates[k]
  {
  }

  lemma EraseKeepsRecord(env: Env, s: State, c: VersionedCommand, k: (Scope, string))
    requires k in s.creates && c.id != s.creates[k].id && (c.id in s.memories ==> s.memories[c.id].id == c.id)
    ensures k in Erase(env, s, c).0.creates && Erase(env, s, c).0.creates[k] == s.creates[k]
  {
  }

  lemma RecordKept(env: Env, s: State, c: Command, k: (Scope, string))
    requires Sound(s) && k in s.creates && !Erases(c, s.creates[k].id)
    ensures k in Apply(env, s, c).creates && Apply(env, s, c).creates[k] == s.creates[k]
  {
    if c.EraseCommand? {
      assert c.command.id in s.memories ==> Recorded(s, c.command.id);
      EraseKeepsRecord(env, s, c.command, k);
    } else {
      OthersKeepRecord(env, s, c, k);
    }
  }

  lemma {:induction false} RecordKeptExec(env: Env, s: State, cs: seq<Command>, k: (Scope, string))
    requires Sound(s) && k in s.creates && forall c :: c in cs ==> !Erases(c, s.creates[k].id)
    ensures k in Exec(env, s, cs).creates && Exec(env, s, cs).creates[k] == s.creates[k]
    decreases cs
  {
    if cs != [] {
      RecordKept(env, s, cs[0], k);
      SoundStep(env, s, cs[0]);
      RecordKeptExec(env, Apply(env, s, cs[0]), cs[1..], k);
    }
  }

  /** Replaying a create at any later time returns the current memory and changes nothing, until it is erased. */
  lemma ReplayReturnsCurrent(env: Env, s: State, r: CreateRequest, cs: seq<Command>, now: Time)
    requires Sound(s) && r.idempotencyKey != "" && Create(env, s, r).1.Ok? && Create(env, s, r).0 != s
    requires forall c :: c in cs ==> !Erases(c, r.id)
    ensures var s' := Exec(env, Create(env, s, r).0, cs);
            r.id in s'.memories && Create(env, s', r.(now := now)) == (s', Ok(s'.memories[r.id]))
  {
    var created := Create(env, s, r).0;
    CreateOk(env, s, r);
    RecordKeptExec(env, created, cs, (r.scope, r.idempotencyKey));
    ExecEvolves(env, created, cs, r.id);
  }
}
