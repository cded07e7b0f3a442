/**
 Retried extraction writes among everything else that happens to the store: other jobs write, and
 hosts create, activate, correct, dismiss, forget, erase and embed. A memory's ID never leaves the
 store, so what one attempt of a job wrote, no later attempt writes again.
 */
module ExtractionRetries {
  import opened MemoryTypes
  import opened MemoryModel
  import opened MemoryInvariants
  import opened MemoryErasure
  import opened Extraction

  /** The store command by which a worker writes a draft. */
  function CommandOf(uuid: Uuid, w: Write): Command {
    CreateCommand(CandidateRequest(uuid, w.row, w.draft, w.now))
  }

  /** Writes of the same job with the same kind, key and content; the row, the scores and the clock may differ. */
  predicate Repeats(v: Write, w: Write) {
    && v.row.id == w.row.id
    && v.draft.kind == w.draft.kind && v.draft.key == w.draft.key && v.draft.content == w.draft.content
  }

  function StateAt(env: Env, s: State, cs: seq<Command>, k: nat): State
    requires k <= |cs|
  {
    MemoryModel.Exec(env, s, cs[..k])
  }

  lemma {:induction false} ExecConcat(env: Env, s: State, cs: seq<Command>, ds: seq<Command>)
    ensures MemoryModel.Exec(env, s, cs + ds) == MemoryModel.Exec(env, MemoryModel.Exec(env, s, cs), ds)
    decreases cs
  {
    if cs == [] {
      assert cs + ds == ds;
    } else {
      assert (cs + ds)[0] == cs[0] && (cs + ds)[1..] == cs[1..] + ds;
      ExecConcat(env, MemoryModel.Apply(env, s, cs[0]), cs[1..], ds);
    }
  }

  lemma StateAfter(env: Env, s: State, cs: seq<Command>, k: nat)
    requires k < |cs|
    ensures StateAt(env, s, cs, k + 1) == MemoryModel.Apply(env, StateAt(env, s, cs, k), cs[k])
  {
    assert cs[..k + 1] == cs[..k] + [cs[k]];
    ExecConcat(env, s, cs[..k], [cs[k]]);
  }

  /** IDs never leave the store. */
  lemma IDsStay(env: Env, s: State, cs: seq<Command>, i: nat, j: nat, id: string)
    requires Sound(s) && i <= j <= |cs| && id in StateAt(env, s, cs, i).memories
    ensures id in StateAt(env, s, cs, j).memories
  {
    assert cs[..j] == cs[..i] + cs[i..j];
    ExecConcat(env, s, cs[..i], cs[i..j]);
    SoundExec(env, s, cs[..i]);
    ExecEvolves(env, StateAt(env, s, cs, i), cs[i..j], id);
  }

  /**
   In any run of the store, once a job's write of a kind, key and content was accepted or found its memory there, a
   later write of the same changes nothing, whatever was done to that memory and to others in between.
   */
  lemma RepeatChangesNothing(env: Env, s: State, cs: seq<Command>, uuid: Uuid, i: nat, j: nat, v: Write, w: Write)
    requires Sound(s) && i < j < |cs| && cs[i] == CommandOf(uuid, v) && cs[j] == CommandOf(uuid, w) && Repeats(v, w)
    requires Succeeds(env, StateAt(env, s, cs, i), cs[i]) ||
             CandidateID(uuid, v.row.id, v.draft) in StateAt(env, s, cs, i).memories
    ensures StateAt(env, s, cs, j + 1) == StateAt(env, s, cs, j)
  {
    var id := CandidateID(uuid, v.row.id, v.draft);
    CandidateWriteAdds(env, StateAt(env, s, cs, i), uuid, v.row, v.draft, v.now);
    StateAfter(env, s, cs, i);
    IDsStay(env, s, cs, i + 1, j, id);
    StateAfter(env, s, cs, j);
  }

  /**
   The candidate that a write adds: it says what the draft says, in the scope and with the source of the job, created
   by its extractor, and waits for review.
   */
  lemma CandidateSays(env: Env, s: State, uuid: Uuid, w: Write)
    ensures var s', id := Create(env, s, CandidateRequest(uuid, w.row, w.draft, w.now)).0,
                          CandidateID(uuid, w.row.id, w.draft);
            id in s'.memories && id !in s.memories ==>
              && var m, d, j := s'.memories[id], w.draft, w.row;
              && m.kind == d.kind && m.key == d.key && m.content == d.content && m.validFrom == d.validFrom
              && m.validUntil == d.validUntil && m.importance == d.importance && m.confidence == d.confidence
              && m.status == Candidate && m.scope == j.scope && m.sourceAgentID == j.sourceAgentID
              && m.createdBy == "extractor:" + j.extractorID && m.createdAt == w.now && m.version == 1
              && id in s'.sources && s'.sources[id] == [j.source]
  {
  }

  /** The k-th command brought a memory with this ID into the store. */
  ghost predicate Brings(env: Env, s: State, cs: seq<Command>, k: nat, id: string)
    requires k < |cs|
  {
    id !in StateAt(env, s, cs, k).memories && id in StateAt(env, s, cs, k + 1).memories
  }

  /** In any run of the store at most one write of a job's kind, key and content brings a memory. */
  lemma OneMemoryPerDraft(env: Env, s: State, cs: seq<Command>, uuid: Uuid, i: nat, j: nat, v: Write, w: Write,
                          a: string, b: string)
    requires Sound(s) && i < |cs| && j < |cs|
    requires cs[i] == CommandOf(uuid, v) && cs[j] == CommandOf(uuid, w) && Repeats(v, w)
    requires Brings(env, s, cs, i, a) && Brings(env, s, cs, j, b)
    ensures i == j && a == b == CandidateID(uuid, v.row.id, v.draft)
  {
    StateAfter(env, s, cs, i);
    StateAfter(env, s, cs, j);
    CandidateWriteAdds(env, StateAt(env, s, cs, i), uuid, v.row, v.draft, v.now);
    CandidateWriteAdds(env, StateAt(env, s, cs, j), uuid, w.row, w.draft, w.now);
    assert IdentityText(v.draft) == IdentityText(w.draft);
    if i < j {
      IDsStay(env, s, cs, i + 1, j, a);
    } else if j < i {
      IDsStay(env, s, cs, j + 1, i, b);
    }
  }
}
