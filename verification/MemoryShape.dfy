/** The shape of every stored record, which recall checks again on whatever a store returns. */
module MemoryShape {
  import opened Text
  import opened MemoryTypes
  import opened MemoryModel

  /** A record recall would accept; only an inactive one may have lost its content. */
  predicate Shaped(m: Memory) {
    && !Blank(m.id) && !Blank(m.key) && !m.kind.OtherKind? && !m.status.OtherStatus?
    && ValidScores(m.importance, m.confidence) && ValidRange(m.validFrom, m.validUntil) && m.version >= 1
    && (m.status != Inactive ==> !Blank(m.content))
  }

  predicate AllShaped(memories: map<string, Memory>) {
    forall id :: id in memories ==> memories[id].id == id && Shaped(memories[id])
  }

  lemma ValidIDNotBlank(id: string)
    requires ValidID(id)
    ensures !Blank(id)
  {
    assert id[8] in id && !IsSpace(id[8]);
  }

  lemma ValidKeyNotBlank(key: string, maxRunes: int)
    requires ValidKey(key, maxRunes)
    ensures !Blank(key)
  {
    TrimBlank(key);
  }

  lemma NewShaped(r: CreateRequest, limits: Limits)
    requires ValidCreate(r, limits)
    ensures Shaped(NewMemory(r))
  {
    ValidIDNotBlank(r.id);
    ValidKeyNotBlank(r.key, limits.maxKeyRunes);
  }

  lemma PutShaped(s: State, m: Memory, action: Action, actor: string, reason: string, now: Time, erased: bool)
    requires AllShaped(s.memories) && Shaped(m)
    ensures AllShaped(Put(s, m, action, actor, reason, now, erased).memories)
  {
  }

  lemma SupersedeShaped(s: State, target: Memory, actor: string, reason: string, now: Time)
    requires AllShaped(s.memories)
    ensures AllShaped(Supersede(s, target, actor, reason, now).memories)
  {
    var after := Supersede(s, target, actor, reason, now).memories;
    forall id | id in after ensures after[id].id == id && Shaped(after[id]) {
      assert Shaped(s.memories[id]);
    }
  }

  lemma CreateShaped(env: Env, s: State, r: CreateRequest)
    requires AllShaped(s.memories)
    ensures AllShaped(Create(env, s, r).0.memories)
  {
    if ValidCreate(r, env.limits) {
      var m := NewMemory(r);
      NewShaped(r, env.limits);
      SupersedeShaped(s, m, r.actor, r.reason, r.now);
      PutShaped(if m.status == Active then Supersede(s, m, r.actor, r.reason, r.now) else s, m, CreateAction, r.actor,
                r.reason, r.now, false);
    }
  }

  lemma CommandShaped(s: State, c: VersionedCommand)
    requires AllShaped(s.memories) && Target(s, c).Ok?
    ensures Shaped(Target(s, c).value) && Target(s, c).value.id == c.id
  {
    assert Shaped(s.memories[c.id]);
  }

  lemma ActivateShaped(env: Env, s: State, c: VersionedCommand)
    requires AllShaped(s.memories)
    ensures AllShaped(Activate(env, s, c).0.memories)
  {
    if Activate(env, s, c).1.Ok? {
      CommandShaped(s, c);
      var m := Target(s, c).value;
      SupersedeShaped(s, m, c.actor, c.reason, c.now);
      PutShaped(Supersede(s, m, c.actor, c.reason, c.now), Next(m, Active, c.now), ActivateAction, c.actor, c.reason,
                c.now, false);
    }
  }

  lemma CorrectShaped(env: Env, s: State, r: CorrectRequest)
    requires AllShaped(s.memories)
    ensures AllShaped(Correct(env, s, r).0.memories)
  {
    if Correct(env, s, r).1.Ok? {
      var c := r.command;
      CommandShaped(s, c);
      PutShaped(s, Corrected(Target(s, c).value, r), CorrectAction, c.actor, c.reason, c.now, false);
    }
  }

  lemma DeactivateShaped(env: Env, s: State, c: VersionedCommand, from: Status, action: Action)
    requires AllShaped(s.memories)
    ensures AllShaped(Deactivate(env, s, c, from, action).0.memories)
  {
    if Deactivate(env, s, c, from, action).1.Ok? {
      CommandShaped(s, c);
      PutShaped(s, Next(Target(s, c).value, Inactive, c.now), action, c.actor, c.reason, c.now, false);
    }
  }

  lemma EraseShaped(env: Env, s: State, c: VersionedCommand)
    requires AllShaped(s.memories)
    ensures AllShaped(Erase(env, s, c).0.memories)
  {
    if Erase(env, s, c).1.Ok? {
      CommandShaped(s, c);
      PutShaped(s, Next(Target(s, c).value, Inactive, c.now).(content := ""), EraseAction, c.actor, c.reason, c.now,
                true);
    }
  }

  lemma ShapedStep(env: Env, s: State, c: Command)
    requires AllShaped(s.memories)
    ensures AllShaped(Apply(env, s, c).memories)
  {
    match c
    case CreateCommand(r) => CreateShaped(env, s, r);
    case ActivateCommand(v) => ActivateShaped(env, s, v);
    case CorrectCommand(r) => CorrectShaped(env, s, r);
    case DismissCommand(v) => DeactivateShaped(env, s, v, Candidate, DismissAction);
    case ForgetCommand(v) => DeactivateShaped(env, s, v, Active, ForgetAction);
    case EraseCommand(v) => EraseShaped(env, s, v);
    case EmbedCommand(r) =>
  }

  /** After any commands every stored record has the shape recall demands. */
  lemma {:induction false} ShapedExec(env: Env, s: State, cs: seq<Command>)
    requires AllShaped(s.memories)
    ensures AllShaped(Exec(env, s, cs).memories)
    decreases cs
  {
    if cs != [] {
      ShapedStep(env, s, cs[0]);
      ShapedExec(env, Apply(env, s, cs[0]), cs[1..]);
    }
  }
}
