/** Records, requests and validation rules of memorykit. */
module MemoryTypes {
  import opened Text

  type Time = int
  const ZERO_TIME: Time := 0

  datatype SubjectType = ProjectSubject | UserSubject | OtherSubject(text: string)

  datatype Scope = Scope(tenantID: string, subjectType: SubjectType, subjectID: string) {
    predicate Valid() {
      !Blank(tenantID) && !Blank(subjectID) && !subjectType.OtherSubject?
    }
  }

  datatype Kind = Fact | Decision | Constraint | Lesson | OtherKind(text: string)

  datatype Status = Candidate | Active | Inactive | OtherStatus(text: string)

  datatype Memory = Memory(
    id: string, key: string, content: string, sourceAgentID: string, createdBy: string, idempotencyKey: string,
    scope: Scope, kind: Kind, status: Status, validFrom: Time, validUntil: Time,
    importance: int, confidence: real, version: int, createdAt: Time, updatedAt: Time)

  datatype Source = Source(kind: string, ref: string, evidenceHash: string)

  datatype Action = CreateAction | ActivateAction | CorrectAction | SupersedeAction | ForgetAction | EraseAction
                  | DismissAction

  datatype Revision = Revision(memoryID: string, version: int, action: Action, actor: string, reason: string,
                               snapshot: Memory, contentErased: bool, createdAt: Time)

  datatype Limits = Limits(version: string, maxKeyRunes: int, maxContentRunes: int, maxMetadataRunes: int,
                           maxSourcesPerMemory: int, maxListItems: int) {
    predicate Valid() {
      !Blank(version) && maxKeyRunes > 0 && maxContentRunes > 0 && maxMetadataRunes > 0
      && maxSourcesPerMemory > 0 && maxListItems > 0
    }
  }

  datatype CreateRequest = CreateRequest(
    id: string, scope: Scope, kind: Kind, key: string, status: Status, content: string,
    validFrom: Time, validUntil: Time, importance: int, confidence: real,
    sourceAgentID: string, actor: string, reason: string, idempotencyKey: string, sources: seq<Source>, now: Time)

  datatype VersionedCommand = VersionedCommand(scope: Scope, id: string, expectedVersion: int, actor: string,
                                               reason: string, now: Time)

  datatype CorrectRequest = CorrectRequest(command: VersionedCommand, content: string, validFrom: Time,
                                           validUntil: Time,
                                           importance: int, confidence: real, sources: seq<Source>)

  datatype PutEmbeddingRequest = PutEmbeddingRequest(memoryID: string, scope: Scope, profileID: string,
                                                     contentHash: string, dimensions: int, vector: seq<real>)

  // ---- validation --------------------------------------------------------------------------------------

  predicate HexDigit(c: char) {
    '0' <= c <= '9' || 'a' <= c <= 'f'
  }

  /** The canonical lower-case UUID text form. */
  predicate ValidID(id: string) {
    |id| == 36 && forall i :: 0 <= i < 36 ==> if i in {8, 13, 18, 23} then id[i] == '-' else HexDigit(id[i])
  }

  predicate ControlRune(c: char) {
    c as int <= 0x1f || c as int == 0x7f
  }

  predicate ValidKey(key: string, maxRunes: int) {
    key != "" && key == Trim(key) && |key| <= maxRunes && forall c :: c in key ==> !ControlRune(c)
  }

  predicate ValidContent(content: string, maxRunes: int) {
    !Blank(content) && '\0' !in content && |content| <= maxRunes
  }

  predicate ValidRange(from: Time, until: Time) {
    until == ZERO_TIME || until > from
  }

  predicate ValidScores(importance: int, confidence: real) {
    0 <= importance <= 100 && 0.0 <= confidence <= 1.0
  }

  predicate ValidMetadata(value: string, limits: Limits) {
    |value| <= limits.maxMetadataRunes
  }

  predicate ValidSources(sources: seq<Source>, limits: Limits) {
    && |sources| <= limits.maxSourcesPerMemory
    && (forall s :: s in sources ==>
          ValidMetadata(s.kind, limits) && ValidMetadata(s.ref, limits) && ValidMetadata(s.evidenceHash, limits))
    && (forall i, j :: 0 <= i < j < |sources| ==>
          sources[i].kind != sources[j].kind || sources[i].ref != sources[j].ref)
  }

  predicate ValidCreate(r: CreateRequest, limits: Limits) {
    && limits.Valid() && r.scope.Valid() && ValidID(r.id)
    && !r.kind.OtherKind? && !r.status.OtherStatus?
    && ValidKey(r.key, limits.maxKeyRunes) && ValidContent(r.content, limits.maxContentRunes)
    && ValidRange(r.validFrom, r.validUntil) && ValidScores(r.importance, r.confidence)
    && ValidMetadata(r.sourceAgentID, limits) && ValidMetadata(r.actor, limits)
    && ValidMetadata(r.reason, limits) && ValidMetadata(r.idempotencyKey, limits)
    && ValidSources(r.sources, limits)
  }

  predicate ValidCommand(c: VersionedCommand, limits: Limits) {
    && limits.Valid() && c.scope.Valid() && ValidID(c.id) && c.expectedVersion > 0
    && ValidMetadata(c.actor, limits) && ValidMetadata(c.reason, limits)
  }

  predicate ValidCorrect(r: CorrectRequest, limits: Limits) {
    && ValidCommand(r.command, limits)
    && ValidContent(r.content, limits.maxContentRunes) && ValidRange(r.validFrom, r.validUntil)
    && ValidScores(r.importance, r.confidence) && ValidSources(r.sources, limits)
  }

  predicate NonZero(v: seq<real>) {
    exists x :: x in v && x != 0.0
  }

  predicate ValidEmbeddingMetadata(value: string, limits: Limits) {
    && value != "" && value == Trim(value) && |value| <= limits.maxMetadataRunes
    && forall c :: c in value ==> !ControlRune(c)
  }

  predicate ValidPut(r: PutEmbeddingRequest, limits: Limits) {
    && limits.Valid() && r.scope.Valid() && ValidID(r.memoryID)
    && ValidEmbeddingMetadata(r.profileID, limits) && ValidEmbeddingMetadata(r.contentHash, limits)
    && r.dimensions > 0 && |r.vector| == r.dimensions && NonZero(r.vector)
  }
}
