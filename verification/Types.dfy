/**
  The contracts shared by every layer of the digital-twin kernel: identifiers,
  hashes, event payloads, sealed events, and the errors the layers raise.

  Identifiers, times and hashes are abstracted. An identifier is a number, so that it
  has the equality and the total order that the program uses of its strings, and 0 is
  the empty string. A time is an integer. A content hash is the term HashOf(material):
  two hashes are equal exactly when the hashed material is equal.
 */
module Types {

  type Id = nat

  /** The empty identifier, which the program treats as missing. */
  const NO_ID: Id := 0

  datatype Option<+T> = None | Some(value: T)

  /** The exceptions of the program that the modelled code can raise. */
  datatype Error =
    | InvariantViolation
    | ConcurrencyConflict
    | IntegrityError
    | UniqueConstraint
    | ProtocolViolation
    | ResumeCursorRejected
    | PolicyDenied
    | InvalidValue

  datatype Result<+T> = Ok(value: T) | Err(error: Error)

  // ---------------------------------------------------------------- payloads

  datatype Plane = Authoritative | ProjectionPlane | Simulation

  datatype Version = V1 | V2 | UnknownVersion

  datatype Sensitivity = Public | Internal | Confidential | Restricted {
    function Rank(): nat {
      match this
      case Public => 0
      case Internal => 1
      case Confidential => 2
      case Restricted => 3
    }
  }

  /** One provenance reference of a claim or of an entity link. */
  datatype Ref = Ref(evidence: Id, relation: Id, group: Id)

  /** A half-open interval of valid time; a missing start means "always". */
  datatype Validity = Validity(start: Option<int>, end: Option<int>)

  /** A sensitivity of None is a string that names no sensitivity level. */
  datatype Evidence = Evidence(subject: Id, contentHash: Id, source: Id,
                               sensitivity: Option<Sensitivity>, group: Id, validity: Validity, content: Id)

  datatype Link = Link(subject: Id, space: Id, entity: Id, provenance: seq<Ref>, confidence: real, validity: Validity)

  datatype Claim = Claim(subject: Id, statement: Id, kind: Id, provenance: seq<Ref>,
                         sensitivity: Option<Sensitivity>, validity: Validity, epistemic: seq<real>, detail: Id)

  datatype Contradiction = Contradiction(subject: Option<Id>, claims: seq<Id>, basis: Id)

  datatype Resolution = Uphold | RetainCompeting | InsufficientEvidence | Corrected | UnknownResolution

  datatype Adjudication = Adjudication(subject: Id, resolution: Resolution, preferred: seq<Id>,
                                       reviewer: Id, rationale: Id)

  datatype TargetKind = EvidenceTarget | ClaimTarget | UnknownTarget

  datatype Correction = Correction(subject: Id, kind: TargetKind, target: Id, replacement: Id,
                                   reviewer: Id, rationale: Id)

  datatype Projection = Projection(purpose: Id, recipient: Id, receipt: Id, sources: seq<Id>)

  datatype Payload =
    | EvidenceIngested(evidence: Id, evidenceBody: Evidence)
    | EntityLinked(link: Id, linkBody: Link)
    | EntityUnlinked(link: Id, reason: Id)
    | EvidenceDeleted(evidence: Id)
    | ClaimProposed(claim: Id, claimBody: Claim)
    | ClaimAccepted(claim: Id)
    | ClaimContested(claim: Id)
    | ClaimRetired(claim: Id)
    | ClaimSuperseded(claim: Id, successor: Id)
    | ContradictionDetected(contradiction: Id, contradictionBody: Contradiction)
    | ContradictionAdjudicated(contradiction: Id, adjudicationBody: Adjudication)
    | CorrectionRecorded(correction: Id, correctionBody: Correction)
    | ProjectionIssued(projection: Id, projectionBody: Projection)
    | ProjectionRevoked(projection: Id)
    | DegradationDeclared(reason: Id)
    | DegradationCleared(reason: Id)
    | OtherEvent(name: Id)

  /** The event type names, as far as a subscription filter can tell payloads apart. */
  datatype EventType =
    | EvidenceIngestedType | EntityLinkedType | EntityUnlinkedType | EvidenceDeletedType
    | ClaimProposedType | ClaimAcceptedType | ClaimContestedType | ClaimRetiredType | ClaimSupersededType
    | ContradictionDetectedType | ContradictionAdjudicatedType | CorrectionRecordedType
    | ProjectionIssuedType | ProjectionRevokedType
    | DegradationDeclaredType | DegradationClearedType | OtherType(name: Id)

  function TypeOf(p: Payload): EventType {
    match p
    case EvidenceIngested(_, _) => EvidenceIngestedType
    case EntityLinked(_, _) => EntityLinkedType
    case EntityUnlinked(_, _) => EntityUnlinkedType
    case EvidenceDeleted(_) => EvidenceDeletedType
    case ClaimProposed(_, _) => ClaimProposedType
    case ClaimAccepted(_) => ClaimAcceptedType
    case ClaimContested(_) => ClaimContestedType
    case ClaimRetired(_) => ClaimRetiredType
    case ClaimSuperseded(_, _) => ClaimSupersededType
    case ContradictionDetected(_, _) => ContradictionDetectedType
    case ContradictionAdjudicated(_, _) => ContradictionAdjudicatedType
    case CorrectionRecorded(_, _) => CorrectionRecordedType
    case ProjectionIssued(_, _) => ProjectionIssuedType
    case ProjectionRevoked(_) => ProjectionRevokedType
    case DegradationDeclared(_) => DegradationDeclaredType
    case DegradationCleared(_) => DegradationClearedType
    case OtherEvent(name) => OtherType(name)
  }

  predicate IsProjectionPayload(p: Payload) {
    p.ProjectionIssued? || p.ProjectionRevoked?
  }

  // ---------------------------------------------------------------- events

  /** An idempotency key: one that a caller chose, or the name that is derived for a telemetry record. */
  datatype Key = Given(id: Id) | RecordKey(twin: Id, batch: Id, record: Id)

  const NO_KEY := Given(NO_ID)

  /** What a producer asks the ledger to record. */
  datatype Request = Request(eventId: Id, twin: Id, plane: Plane, payload: Payload, occurredAt: int,
                             producer: Id, role: Id, key: Key, version: Version,
                             causation: Option<Id>, correlation: Option<Id>)

  /** A request bound to one position of its twin's chain. seqNo is 0 until it is sealed. */
  datatype Event = Event(req: Request, seqNo: nat, recordedAt: int, previous: Hash, hash: Hash)

  /** Everything a content hash covers; the role is None when the schema predates it. */
  datatype Material = Material(req: Request, role: Option<Id>, seqNo: nat, recordedAt: int, previous: Hash)

  datatype Hash = NoHash | HashOf(material: Material)
}
