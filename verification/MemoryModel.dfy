/**
 The lifecycle commands of the governed memory store as functions on its state: creation with
 idempotency keys, activation with supersession, correction, dismissal, forgetting, erasure
 and embeddings.
 */
module MemoryModel {
  import opened Wrappers
  import opened MemoryTypes

  /** What proves an exact replay: the request without its clock. The hash over it is taken to be injective. */
  type Fingerprint = CreateRequest

  datatype CreateRecord = CreateRecord(id: string, fingerprint: Option<Fingerprint>, erased: bool)

  datatype Embedding = Embedding(contentHash: string, dimensions: int, vector: seq<real>)

  datatype State = State(
    memories: map<string, Memory>,
    sources: map<string, seq<Source>>,
    revisions: map<string, seq<Revision>>,
    creates: map<(Scope, string), CreateRecord>,
    embeddings: map<(string, string), Embedding>)

  datatype Error = InvalidMemory | Conflict | NotFound

  /** The store's limits and content hash. */
  datatype Env = Env(limits: Limits, hash: string -> string)

  function FingerprintOf(r: CreateRequest): Fingerprint {
    r.(now := ZERO_TIME)
  }

  predicate SameConflictKey(a: Memory, b: Memory) {
    a.scope == b.scope && a.kind == b.kind && a.key == b.key
  }

  function RevisionsOf(s: State, id: string): seq<Revision> {
    if id in s.revisions then s.revisions[id] else []
  }

  function RevisionFor(m: Memory, action: Action, actor: string, reason: string, now: Time, erased: bool): Revision {
    Revision(m.id, m.version, action, actor, reason, m, erased, now)
  }

  /** Stores a memory record and appends its revision. */
  function Put(s: State, m: Memory, action: Action, actor: string, reason: string, now: Time, erased: bool): State {
    s.(memories := s.memories[m.id := m],
       revisions := s.revisions[m.id := RevisionsOf(s, m.id) + [RevisionFor(m, action, actor, reason, now, erased)]])
  }

  // ---- supersession -----------------------------------------------------------------------------------

  predicate Superseded(m: Memory, target: Memory) {
    m.id != target.id && m.status == Active && SameConflictKey(m, target)
  }

  function Retired(m: Memory, now: Time): Memory {
    m.(status := Inactive, version := m.version + 1, updatedAt := now)
  }

  function MemoryAfter(m: Memory, target: Memory, now: Time): Memory {
    if Superseded(m, target) then Retired(m, now) else m
  }

  function RevisionsAfter(rs: seq<Revision>, m: Memory, target: Memory, actor: string, reason: string, now: Time)
    : seq<Revision>
  {
    if Superseded(m, target) then rs + [RevisionFor(Retired(m, now), SupersedeAction, actor, reason, now, false)]
    else rs
  }

  /** Every other active memory with the target's conflict key is retired. */
  function Supersede(s: State, target: Memory, actor: string, reason: string, now: Time): State {
    s.(memories := map id | id in s.memories :: MemoryAfter(s.memories[id], target, now),
       revisions := map id | id in s.revisions ::
         if id in s.memories then RevisionsAfter(s.revisions[id], s.memories[id], target, actor, reason, now)
         else s.revisions[id])
  }

  // ---- commands -----------------------------------------------------------------------------------------

  function NewMemory(r: CreateRequest): Memory {
    Memory(r.id, r.key, r.content, r.sourceAgentID, r.actor, r.idempotencyKey, r.scope, r.kind, r.status,
           r.validFrom, r.validUntil, r.importance, r.confidence, 1, r.now, r.now)
  }

  function Created(s: State, r: CreateRequest): State {
    var m := NewMemory(r);
    var cleared := if m.status == Active then Supersede(s, m, r.actor, r.reason, r.now) else s;
    var stored := Put(cleared, m, CreateAction, r.actor, r.reason, r.now, false);
    stored.(sources := s.sources[r.id := r.sources],
            creates := if r.idempotencyKey == "" then s.creates
                       else s.creates[(r.scope, r.idempotencyKey) := CreateRecord(r.id, Some(FingerprintOf(r)), false)])
  }

  /** An exact replay of an earlier, not erased create. */
  predicate Replays(s: State, r: CreateRequest) {
    && r.idempotencyKey != "" && (r.scope, r.idempotencyKey) in s.creates
    && var previous := s.creates[(r.scope, r.idempotencyKey)];
    && !previous.erased && previous.id == r.id && previous.fingerprint == Some(FingerprintOf(r)) && r.id in s.memories
  }

  function Create(env: Env, s: State, r: CreateRequest): (State, Result<Memory, Error>) {
    if !ValidCreate(r, env.limits) then (s, Err(InvalidMemory))
    else if r.idempotencyKey != "" && (r.scope, r.idempotencyKey) in s.creates then
      (s, if Replays(s, r) then Ok(s.memories[r.id]) else Err(Conflict))
    else if r.id in s.memories then (s, Err(Conflict))
    else (Created(s, r), Ok(NewMemory(r)))
  }

  function Target(s: State, c: VersionedCommand): Result<Memory, Error> {
    if c.id !in s.memories || s.memories[c.id].scope != c.scope then Err(NotFound)
    else if s.memories[c.id].version != c.expectedVersion then Err(Conflict)
    else Ok(s.memories[c.id])
  }

  function Next(m: Memory, status: Status, now: Time): Memory {
    m.(status := status, version := m.version + 1, updatedAt := now)
  }

  function Activate(env: Env, s: State, c: VersionedCommand): (State, Result<Memory, Error>) {
    if !ValidCommand(c, env.limits) then (s, Err(InvalidMemory))
    else match Target(s, c)
      case Err(e) => (s, Err(e))
      case Ok(m) =>
        if m.status != Candidate then (s, Err(Conflict))
        else
          var active := Next(m, Active, c.now);
          (Put(Supersede(s, m, c.actor, c.reason, c.now), active, ActivateAction, c.actor, c.reason, c.now, false),
           Ok(active))
  }

  function Corrected(m: Memory, r: CorrectRequest): Memory {
    m.(content := r.content, validFrom := r.validFrom, validUntil := r.validUntil, importance := r.importance,
       confidence := r.confidence, version := m.version + 1, updatedAt := r.command.now)
  }

  function Correct(env: Env, s: State, r: CorrectRequest): (State, Result<Memory, Error>) {
    if !ValidCorrect(r, env.limits) then (s, Err(InvalidMemory))
    else match Target(s, r.command)
      case Err(e) => (s, Err(e))
      case Ok(m) =>
        var c := r.command;
        var stored := Put(s, Corrected(m, r), CorrectAction, c.actor, c.reason, c.now, false);
        (stored.(sources := s.sources[m.id := r.sources]),
         Ok(Corrected(m, r)))
  }

  /** Dismiss a candidate or forget an active memory. */
  function Deactivate(env: Env, s: State, c: VersionedCommand, from: Status, action: Action)
    : (State, Result<Memory, Error>)
  {
    if !ValidCommand(c, env.limits) then (s, Err(InvalidMemory))
    else match Target(s, c)
      case Err(e) => (s, Err(e))
      case Ok(m) =>
        if m.status != from then (s, Err(Conflict))
        else (Put(s, Next(m, Inactive, c.now), action, c.actor, c.reason, c.now, false), Ok(Next(m, Inactive, c.now)))
  }

  function EraseRevision(r: Revision): Revision {
    r.(snapshot := r.snapshot.(content := ""), contentErased := true)
  }

  function EraseRevisions(rs: seq<Revision>): seq<Revision> {
    seq(|rs|, i requires 0 <= i < |rs| => EraseRevision(rs[i]))
  }

  function EraseCreates(creates: map<(Scope, string), CreateRecord>, id: string): map<(Scope, string), CreateRecord> {
    map k | k in creates :: if creates[k].id == id then CreateRecord(id, None, true) else creates[k]
  }

  function DropEmbeddings(embeddings: map<(string, string), Embedding>, id: string): map<(string, string), Embedding> {
    map k | k in embeddings && k.0 != id :: embeddings[k]
  }

  function Erased(s: State, m: Memory, c: VersionedCommand): State {
    var gone := Next(m, Inactive, c.now).(content := "");
    var wiped := s.(sources := s.sources[m.id := []],
                    embeddings := DropEmbeddings(s.embeddings, m.id),
                    creates := EraseCreates(s.creates, m.id),
                    revisions := s.revisions[m.id := EraseRevisions(RevisionsOf(s, m.id))]);
    Put(wiped, gone, EraseAction, c.actor, c.reason, c.now, true)
  }

  function Erase(env: Env, s: State, c: VersionedCommand): (State, Result<Memory, Error>) {
    if !ValidCommand(c, env.limits) then (s, Err(InvalidMemory))
    else match Target(s, c)
      case Err(e) => (s, Err(e))
      case Ok(m) => (Erased(s, m, c), Ok(Next(m, Inactive, c.now).(content := "")))
  }

  function PutEmbedding(env: Env, s: State, r: PutEmbeddingRequest): (State, bool) {
    if ValidPut(r, env.limits) && r.memoryID in s.memories && s.memories[r.memoryID].scope == r.scope
       && s.memories[r.memoryID].status == Active && env.hash(s.memories[r.memoryID].content) == r.contentHash
    then
      var embedding := Embedding(r.contentHash, r.dimensions, r.vector);
      (s.(embeddings := s.embeddings[(r.memoryID, r.profileID) := embedding]), true)
    else (s, false)
  }

  // ---- runs ---------------------------------------------------------------------------------------------

  datatype Command =
    | CreateCommand(create: CreateRequest)
    | ActivateCommand(command: VersionedCommand)
    | CorrectCommand(correct: CorrectRequest)
    | DismissCommand(command: VersionedCommand)
    | ForgetCommand(command: VersionedCommand)
    | EraseCommand(command: VersionedCommand)
    | EmbedCommand(put: PutEmbeddingRequest)

  /** The version guard of a command, if it has one. */
  function GuardOf(c: Command): Option<VersionedCommand> {
    match c
    case CreateCommand(_) => None
    case EmbedCommand(_) => None
    case CorrectCommand(r) => Some(r.command)
    case _ => Some(c.command)
  }

  function Apply(env: Env, s: State, c: Command): State {
    match c
    case CreateCommand(r) => Create(env, s, r).0
    case ActivateCommand(v) => Activate(env, s, v).0
    case CorrectCommand(r) => Correct(env, s, r).0
    case DismissCommand(v) => Deactivate(env, s, v, Candidate, DismissAction).0
    case ForgetCommand(v) => Deactivate(env, s, v, Active, ForgetAction).0
    case EraseCommand(v) => Erase(env, s, v).0
    case EmbedCommand(r) => PutEmbedding(env, s, r).0
  }

  predicate Succeeds(env: Env, s: State, c: Command) {
    match c
    case CreateCommand(r) => Create(env, s, r).1.Ok?
    case ActivateCommand(v) => Activate(env, s, v).1.Ok?
    case CorrectCommand(r) => Correct(env, s, r).1.Ok?
    case DismissCommand(v) => Deactivate(env, s, v, Candidate, DismissAction).1.Ok?
    case ForgetCommand(v) => Deactivate(env, s, v, Active, ForgetAction).1.Ok?
    case EraseCommand(v) => Erase(env, s, v).1.Ok?
    case EmbedCommand(r) => PutEmbedding(env, s, r).1
  }

  function Exec(env: Env, s: State, cs: seq<Command>): State
    decreases cs
  {
    if cs == [] then s else Exec(env, Apply(env, s, cs[0]), cs[1..])
  }

  const EMPTY := State(map[], map[], map[], map[], map[])
}
