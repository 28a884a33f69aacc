/**
  The authoritative state of one twin and the transition function that folds events into it.
  `Twin` is the state as a value; `Apply` says what one event does to it, including how far a
  rejected event gets before it is rejected. The class `TwinState` (TwinState.dfy) is the
  mutable object of the program, proved against these functions.
 */
module Aggregate {
  import opened Types

  datatype Recorded<+T> = Recorded(body: T, recordedAt: int)

  /** What a twin is known to hold, apart from where in its event stream that knowledge stands. */
  datatype Facts = Facts(
    subject: Option<Id>,
    evidence: map<Id, Evidence>,
    links: map<Id, Recorded<Link>>,
    unlinked: set<Id>,
    staleLinks: set<Id>,
    claims: map<Id, Recorded<Claim>>,
    accepted: set<Id>,
    contested: set<Id>,
    retired: set<Id>,
    supersededEvidence: set<Id>,
    supersededClaims: set<Id>,
    contradictions: map<Id, Recorded<Contradiction>>,
    adjudications: map<Id, Recorded<Adjudication>>,
    resolved: set<Id>,
    corrections: map<Id, Recorded<Correction>>,
    projections: map<Id, Projection>,
    revoked: set<Id>,
    staleClaims: set<Id>,
    staleProjections: set<Id>,
    degraded: seq<Id>)

  const NO_FACTS := Facts(None, map[], map[], {}, {}, map[], {}, {}, {}, {}, {}, map[], map[], {},
                          map[], map[], {}, {}, {}, [])

  datatype Twin = Twin(twinId: Id, seqNo: nat, lastHash: Hash, facts: Facts)

  function EmptyTwin(twinId: Id): Twin {
    Twin(twinId, 0, NoHash, NO_FACTS)
  }

  // ---------------------------------------------------------------- validation

  predicate Distinct(ids: seq<Id>) {
    forall i, j :: 0 <= i < j < |ids| ==> ids[i] != ids[j]
  }

  predicate ValidProvenance(refs: seq<Ref>) {
    && refs != []
    && (forall i :: 0 <= i < |refs| ==>
          refs[i].evidence != NO_ID && refs[i].relation != NO_ID && refs[i].group != NO_ID)
    && forall i, j :: 0 <= i < j < |refs| ==> refs[i].evidence != refs[j].evidence
  }

  /** Exactly seven independent dimensions, each in [0, 1]. */
  predicate ValidEpistemic(v: seq<real>) {
    |v| == 7 && forall i :: 0 <= i < 7 ==> 0.0 <= v[i] <= 1.0
  }

  /** The per-type field checks; `unsealed` holds of an event that has no sequence number yet. */
  predicate ValidPayload(p: Payload, unsealed: bool) {
    match p
    case EvidenceIngested(id, b) =>
      && id != NO_ID && b.subject != NO_ID && b.contentHash != NO_ID && b.source != NO_ID
      && b.sensitivity.Some? && b.group != NO_ID
    case EntityLinked(id, b) =>
      && id != NO_ID && b.subject != NO_ID && b.space != NO_ID && b.entity != NO_ID
      && ValidProvenance(b.provenance) && 0.0 <= b.confidence <= 1.0
    case EntityUnlinked(id, reason) => id != NO_ID && reason != NO_ID
    case EvidenceDeleted(id) => id != NO_ID
    case ClaimProposed(id, b) =>
      && id != NO_ID && b.subject != NO_ID && b.statement != NO_ID
      && ValidProvenance(b.provenance) && ValidEpistemic(b.epistemic)
    case ClaimAccepted(id) => id != NO_ID
    case ClaimContested(id) => id != NO_ID
    case ClaimRetired(id) => id != NO_ID
    case ClaimSuperseded(id, _) => id != NO_ID
    case ContradictionDetected(id, b) =>
      && id != NO_ID && |b.claims| >= 2 && Distinct(b.claims) && NO_ID !in b.claims
      && (unsealed ==> b.subject.Some? && b.subject.value != NO_ID && b.basis != NO_ID)
    case ContradictionAdjudicated(id, b) =>
      && id != NO_ID && b.subject != NO_ID && b.reviewer != NO_ID && !b.resolution.UnknownResolution?
      && b.rationale != NO_ID && Distinct(b.preferred) && NO_ID !in b.preferred
    case CorrectionRecorded(id, b) =>
      && id != NO_ID && b.subject != NO_ID && b.target != NO_ID && b.replacement != NO_ID
      && b.reviewer != NO_ID && b.rationale != NO_ID && !b.kind.UnknownTarget? && b.target != b.replacement
    case ProjectionRevoked(id) => id != NO_ID
    case _ => true
  }

  predicate ValidEvent(e: Event) {
    && e.req.twin != NO_ID && e.req.producer != NO_ID && e.req.key != NO_KEY
    && !e.req.version.UnknownVersion? && (e.req.version.V1? ==> e.seqNo != 0)
    && (e.req.plane.ProjectionPlane? <==> IsProjectionPayload(e.req.payload))
    && ValidPayload(e.req.payload, e.seqNo == 0)
  }

  // ---------------------------------------------------------------- transitions

  predicate CanBind(s: Facts, subject: Id) {
    subject != NO_ID && (s.subject.None? || s.subject.value == subject)
  }

  predicate Cites(refs: seq<Ref>, evidence: Id) {
    exists i :: 0 <= i < |refs| && refs[i].evidence == evidence
  }

  /** Every reference names evidence that is present, under that evidence's independence group. */
  predicate Grounded(evidence: map<Id, Evidence>, refs: seq<Ref>) {
    forall i :: 0 <= i < |refs| ==>
      refs[i].evidence in evidence && evidence[refs[i].evidence].group == refs[i].group
  }

  function ClaimsCiting(claims: map<Id, Recorded<Claim>>, evidence: Id): set<Id> {
    set c | c in claims && Cites(claims[c].body.provenance, evidence)
  }

  function LinksCiting(links: map<Id, Recorded<Link>>, evidence: Id): set<Id> {
    set l | l in links && Cites(links[l].body.provenance, evidence)
  }

  predicate AllIn(ids: seq<Id>, known: set<Id>) {
    forall c :: c in ids ==> c in known
  }

  predicate DrawsOn(p: Projection, claims: set<Id>) {
    exists c :: c in p.sources && c in claims
  }

  function ProjectionsDrawingOn(projections: map<Id, Projection>, claims: set<Id>): set<Id> {
    set p | p in projections && DrawsOn(projections[p], claims)
  }

  function Without(ids: seq<Id>, x: Id): seq<Id> {
    if ids == [] then [] else
      (if ids[0] == x then [] else [ids[0]]) + Without(ids[1..], x)
  }

  /** Target and replacement are known, and neither has been superseded. */
  predicate CanCorrect(s: Facts, b: Correction) {
    if b.kind.EvidenceTarget? then
      && b.target in s.evidence && b.replacement in s.evidence
      && b.target !in s.supersededEvidence && b.replacement !in s.supersededEvidence
    else
      && b.target in s.claims && b.replacement in s.claims
      && b.target !in s.supersededClaims && b.replacement !in s.supersededClaims
  }

  /** Whether the facts admit the payload. */
  predicate Accepts(s: Facts, p: Payload) {
    match p
    case EvidenceIngested(id, b) => CanBind(s, b.subject) && id !in s.evidence
    case EntityLinked(id, b) => CanBind(s, b.subject) && Grounded(s.evidence, b.provenance) && id !in s.links
    case EntityUnlinked(id, _) => id in s.links && id !in s.unlinked
    case EvidenceDeleted(id) => id in s.evidence
    case ClaimProposed(id, b) => CanBind(s, b.subject) && Grounded(s.evidence, b.provenance) && id !in s.claims
    case ClaimAccepted(id) => id in s.claims && id !in s.retired && id !in s.supersededClaims
    case ClaimContested(id) => id in s.claims && id !in s.retired && id !in s.supersededClaims
    case ClaimRetired(id) => id in s.claims
    case ClaimSuperseded(id, successor) =>
      successor != NO_ID && id in s.claims && successor in s.claims && id !in s.supersededClaims
    case ContradictionDetected(id, b) =>
      && id !in s.contradictions && (b.subject.Some? ==> CanBind(s, b.subject.value))
      && AllIn(b.claims, s.claims.Keys)
    case ContradictionAdjudicated(id, b) =>
      && id in s.contradictions && id !in s.resolved
      && AllIn(b.preferred, set c | c in s.contradictions[id].body.claims)
      && (b.resolution in {Uphold, Corrected} ==> b.preferred != [])
      && CanBind(s, b.subject)
    case CorrectionRecorded(id, b) => CanBind(s, b.subject) && id !in s.corrections && CanCorrect(s, b)
    case ProjectionIssued(id, _) => s.subject.Some? && id !in s.projections
    case ProjectionRevoked(id) => id in s.projections
    case _ => true
  }

  function DeleteEvidence(s: Facts, id: Id): Facts {
    var stale := s.staleClaims + ClaimsCiting(s.claims, id);
    s.(evidence := s.evidence - {id},
       staleLinks := s.staleLinks + LinksCiting(s.links, id),
       staleClaims := stale,
       staleProjections := s.staleProjections + ProjectionsDrawingOn(s.projections, stale))
  }

  function SupersedeClaim(s: Facts, id: Id): Facts {
    s.(accepted := s.accepted - {id}, contested := s.contested - {id},
       supersededClaims := s.supersededClaims + {id},
       staleProjections := s.staleProjections + ProjectionsDrawingOn(s.projections, {id}))
  }

  function CorrectEvidence(s: Facts, id: Id, b: Correction, at: int): Facts {
    var stale := s.staleClaims + ClaimsCiting(s.claims, b.target);
    s.(subject := Some(b.subject), corrections := s.corrections[id := Recorded(b, at)],
       supersededEvidence := s.supersededEvidence + {b.target},
       staleLinks := s.staleLinks + LinksCiting(s.links, b.target),
       staleClaims := stale,
       staleProjections := s.staleProjections + ProjectionsDrawingOn(s.projections, stale))
  }

  function CorrectClaim(s: Facts, id: Id, b: Correction, at: int): Facts {
    s.(subject := Some(b.subject), corrections := s.corrections[id := Recorded(b, at)],
       supersededClaims := s.supersededClaims + {b.target},
       accepted := s.accepted - {b.target}, contested := s.contested - {b.target},
       staleProjections := s.staleProjections + ProjectionsDrawingOn(s.projections, {b.target}))
  }

  /** What an accepted payload changes. */
  function Effect(s: Facts, p: Payload, at: int): Facts {
    match p
    case EvidenceIngested(id, b) => s.(subject := Some(b.subject), evidence := s.evidence[id := b])
    case EntityLinked(id, b) => s.(subject := Some(b.subject), links := s.links[id := Recorded(b, at)])
    case EntityUnlinked(id, _) => s.(unlinked := s.unlinked + {id})
    case EvidenceDeleted(id) => DeleteEvidence(s, id)
    case ClaimProposed(id, b) => s.(subject := Some(b.subject), claims := s.claims[id := Recorded(b, at)])
    case ClaimAccepted(id) => s.(accepted := s.accepted + {id}, contested := s.contested - {id})
    case ClaimContested(id) => s.(contested := s.contested + {id}, accepted := s.accepted - {id})
    case ClaimRetired(id) =>
      s.(accepted := s.accepted - {id}, contested := s.contested - {id}, retired := s.retired + {id})
    case ClaimSuperseded(id, _) => SupersedeClaim(s, id)
    case ContradictionDetected(id, b) =>
      s.(subject := if b.subject.Some? then b.subject else s.subject,
         contradictions := s.contradictions[id := Recorded(b, at)])
    case ContradictionAdjudicated(id, b) =>
      s.(subject := Some(b.subject), adjudications := s.adjudications[id := Recorded(b, at)],
         resolved := s.resolved + {id})
    case CorrectionRecorded(id, b) =>
      if b.kind.EvidenceTarget? then CorrectEvidence(s, id, b, at) else CorrectClaim(s, id, b, at)
    case ProjectionIssued(id, b) => s.(projections := s.projections[id := b])
    case ProjectionRevoked(id) => s.(revoked := s.revoked + {id})
    case DegradationDeclared(reason) => s.(degraded := s.degraded + [reason])
    case DegradationCleared(reason) => s.(degraded := Without(s.degraded, reason))
    case OtherEvent(_) => s
  }

  /** The subject that a payload binds before its remaining checks run, if it binds one that early. */
  function EarlySubject(s: Facts, p: Payload): Option<Id> {
    match p
    case EvidenceIngested(_, b) => Some(b.subject)
    case EntityLinked(_, b) => Some(b.subject)
    case ClaimProposed(_, b) => Some(b.subject)
    case ContradictionDetected(id, b) => if id in s.contradictions then None else b.subject
    case CorrectionRecorded(_, b) => Some(b.subject)
    case _ => None
  }

  /** What a payload leaves behind when it is rejected: at most a binding to its subject. */
  function LeftBehind(s: Facts, p: Payload): Facts {
    var subject := EarlySubject(s, p);
    if subject.Some? && CanBind(s, subject.value) then s.(subject := subject) else s
  }

  /** The facts after an attempt to apply a payload, and whether it was accepted. */
  datatype Outcome = Outcome(facts: Facts, accepted: bool)

  function ApplyPayload(s: Facts, p: Payload, at: int): Outcome {
    if Accepts(s, p) then Outcome(Effect(s, p, at), true) else Outcome(LeftBehind(s, p), false)
  }

  /** The state after an attempt to apply an event, and why it was rejected if it was. */
  datatype Applied = Applied(state: Twin, error: Option<Error>)

  function Apply(s: Twin, e: Event): Applied {
    if !ValidEvent(e) || e.req.plane.Simulation? then Applied(s, Some(InvariantViolation)) else
      var o := ApplyPayload(s.facts, e.req.payload, e.recordedAt);
      if o.accepted then Applied(Twin(s.twinId, e.seqNo, e.hash, o.facts), None)
      else Applied(s.(facts := o.facts), Some(InvariantViolation))
  }

  // ---------------------------------------------------------------- what every state keeps

  /** No claim holds two of the review states at once, and only known claims hold one. */
  predicate ReviewStatesAgree(known: set<Id>, accepted: set<Id>, contested: set<Id>, closed: set<Id>) {
    && accepted + contested + closed <= known
    && accepted !! contested
    && accepted !! closed
    && contested !! closed
  }

  /** Claims that are not stale cite only present evidence, under its own independence group. */
  predicate ClaimsGrounded(evidence: map<Id, Evidence>, claims: map<Id, Recorded<Claim>>, stale: set<Id>) {
    forall c :: c in claims && c !in stale ==> Grounded(evidence, claims[c].body.provenance)
  }

  /** The same of entity links. */
  predicate LinksGrounded(evidence: map<Id, Evidence>, links: map<Id, Recorded<Link>>, stale: set<Id>) {
    forall l :: l in links && l !in stale ==> Grounded(evidence, links[l].body.provenance)
  }

  /** A contradiction is between at least two known claims. */
  predicate ContradictionsKnown(known: set<Id>, contradictions: map<Id, Recorded<Contradiction>>) {
    forall x :: x in contradictions ==>
      && |contradictions[x].body.claims| >= 2
      && Distinct(contradictions[x].body.claims)
      && AllIn(contradictions[x].body.claims, known)
  }

  /** Marks are only ever placed on known things; exactly the adjudicated contradictions are resolved. */
  predicate MarksAgree(s: Facts) {
    && s.staleClaims <= s.claims.Keys
    && s.staleLinks + s.unlinked <= s.links.Keys
    && s.staleProjections + s.revoked <= s.projections.Keys
    && s.adjudications.Keys == s.resolved <= s.contradictions.Keys
    && NO_ID !in s.claims && NO_ID !in s.links && NO_ID !in s.evidence
  }

  predicate Coherent(s: Facts) {
    && ReviewStatesAgree(s.claims.Keys, s.accepted, s.contested, s.retired + s.supersededClaims)
    && ClaimsGrounded(s.evidence, s.claims, s.staleClaims)
    && LinksGrounded(s.evidence, s.links, s.staleLinks)
    && ContradictionsKnown(s.claims.Keys, s.contradictions)
    && MarksAgree(s)
  }

  lemma NoFactsIsCoherent()
    ensures Coherent(NO_FACTS)
  {}

  lemma KnownGrows(known: set<Id>, more: set<Id>, contradictions: map<Id, Recorded<Contradiction>>)
    requires ContradictionsKnown(known, contradictions) && known <= more
    ensures ContradictionsKnown(more, contradictions)
  {}

  lemma ClaimAdded(evidence: map<Id, Evidence>, claims: map<Id, Recorded<Claim>>, stale: set<Id>,
                   id: Id, c: Recorded<Claim>)
    requires ClaimsGrounded(evidence, claims, stale) && Grounded(evidence, c.body.provenance)
    ensures ClaimsGrounded(evidence, claims[id := c], stale)
    ensures claims[id := c].Keys == claims.Keys + {id}
  {}

  lemma LinkAdded(evidence: map<Id, Evidence>, links: map<Id, Recorded<Link>>, stale: set<Id>,
                  id: Id, l: Recorded<Link>)
    requires LinksGrounded(evidence, links, stale) && Grounded(evidence, l.body.provenance)
    ensures LinksGrounded(evidence, links[id := l], stale)
    ensures links[id := l].Keys == links.Keys + {id}
  {}

  lemma ContradictionAdded(known: set<Id>, contradictions: map<Id, Recorded<Contradiction>>,
                           id: Id, x: Recorded<Contradiction>)
    requires ContradictionsKnown(known, contradictions)
    requires |x.body.claims| >= 2 && Distinct(x.body.claims) && AllIn(x.body.claims, known)
    ensures ContradictionsKnown(known, contradictions[id := x])
    ensures contradictions[id := x].Keys == contradictions.Keys + {id}
  {}

  lemma EvidenceAdded(evidence: map<Id, Evidence>, refs: seq<Ref>, id: Id, b: Evidence)
    requires Grounded(evidence, refs) && id !in evidence
    ensures Grounded(evidence[id := b], refs)
  {}

  lemma EvidenceAddedCoherent(s: Facts, id: Id, b: Evidence, at: int)
    requires Coherent(s) && id !in s.evidence && id != NO_ID
    ensures Coherent(Effect(s, EvidenceIngested(id, b), at))
  {
    var more := s.evidence[id := b];
    forall c | c in s.claims && c !in s.staleClaims
      ensures Grounded(more, s.claims[c].body.provenance)
    {
      EvidenceAdded(s.evidence, s.claims[c].body.provenance, id, b);
    }
    forall l | l in s.links && l !in s.staleLinks
      ensures Grounded(more, s.links[l].body.provenance)
    {
      EvidenceAdded(s.evidence, s.links[l].body.provenance, id, b);
    }
  }

  lemma DeletionCoherent(s: Facts, id: Id)
    requires Coherent(s)
    ensures Coherent(DeleteEvidence(s, id))
  {}

  lemma CorrectEvidenceCoherent(s: Facts, id: Id, b: Correction, at: int)
    requires Coherent(s)
    ensures Coherent(CorrectEvidence(s, id, b, at))
  {}

  lemma CorrectClaimCoherent(s: Facts, id: Id, b: Correction, at: int)
    requires Coherent(s) && b.target in s.claims
    ensures Coherent(CorrectClaim(s, id, b, at))
  {}

  lemma LinkCoherent(s: Facts, id: Id, b: Link, at: int)
    requires Coherent(s) && id != NO_ID && Grounded(s.evidence, b.provenance)
    ensures Coherent(Effect(s, EntityLinked(id, b), at))
  {
    hide Grounded, ClaimsGrounded, LinksGrounded, ContradictionsKnown;
    LinkAdded(s.evidence, s.links, s.staleLinks, id, Recorded(b, at));
  }

  lemma ClaimCoherent(s: Facts, id: Id, b: Claim, at: int)
    requires Coherent(s) && id != NO_ID && Grounded(s.evidence, b.provenance)
    ensures Coherent(Effect(s, ClaimProposed(id, b), at))
  {
    hide Grounded, ClaimsGrounded, LinksGrounded, ContradictionsKnown;
    ClaimAdded(s.evidence, s.claims, s.staleClaims, id, Recorded(b, at));
    KnownGrows(s.claims.Keys, s.claims.Keys + {id}, s.contradictions);
  }

  lemma ContradictionCoherent(s: Facts, id: Id, b: Contradiction, at: int)
    requires Coherent(s) && |b.claims| >= 2 && Distinct(b.claims) && AllIn(b.claims, s.claims.Keys)
    ensures Coherent(Effect(s, ContradictionDetected(id, b), at))
  {
    hide ClaimsGrounded, LinksGrounded, ContradictionsKnown;
    ContradictionAdded(s.claims.Keys, s.contradictions, id, Recorded(b, at));
  }

  /** Accepting, contesting, retiring and superseding keep the review states apart. */
  lemma ReviewCoherent(s: Facts, p: Payload, at: int)
    requires Coherent(s) && Accepts(s, p)
    requires p.ClaimAccepted? || p.ClaimContested? || p.ClaimRetired? || p.ClaimSuperseded?
    ensures Coherent(Effect(s, p, at))
  {
    hide ClaimsGrounded, LinksGrounded, ContradictionsKnown, DrawsOn;
  }

  lemma OtherEffectCoherent(s: Facts, p: Payload, at: int)
    requires Coherent(s) && Accepts(s, p)
    requires match p
             case EntityUnlinked(_, _) => true
             case ContradictionAdjudicated(_, _) => true
             case ProjectionIssued(_, _) => true
             case ProjectionRevoked(_) => true
             case DegradationDeclared(_) => true
             case DegradationCleared(_) => true
             case OtherEvent(_) => true
             case _ => false
    ensures Coherent(Effect(s, p, at))
  {
    hide ClaimsGrounded, LinksGrounded, ContradictionsKnown, ReviewStatesAgree, Without;
  }

  lemma EffectCoherent(s: Facts, p: Payload, unsealed: bool, at: int)
    requires Coherent(s) && ValidPayload(p, unsealed) && Accepts(s, p)
    ensures Coherent(Effect(s, p, at))
  {
    hide Coherent, Grounded, ValidProvenance, ValidEpistemic, DeleteEvidence, SupersedeClaim, CorrectEvidence, CorrectClaim;
    match p
    case EvidenceIngested(id, b) => EvidenceAddedCoherent(s, id, b, at);
    case EntityLinked(id, b) => LinkCoherent(s, id, b, at);
    case EvidenceDeleted(id) => DeletionCoherent(s, id);
    case ClaimProposed(id, b) => ClaimCoherent(s, id, b, at);
    case ClaimAccepted(_) => ReviewCoherent(s, p, at);
    case ClaimContested(_) => ReviewCoherent(s, p, at);
    case ClaimRetired(_) => ReviewCoherent(s, p, at);
    case ClaimSuperseded(_, _) => ReviewCoherent(s, p, at);
    case ContradictionDetected(id, b) => ContradictionCoherent(s, id, b, at);
    case CorrectionRecorded(id, b) =>
      if b.kind.EvidenceTarget? {
        CorrectEvidenceCoherent(s, id, b, at);
      } else {
        CorrectClaimCoherent(s, id, b, at);
      }
    case _ => OtherEffectCoherent(s, p, at);
  }

  /** Every event, accepted or rejected, leaves coherent facts behind. */
  lemma CoherenceKept(s: Twin, e: Event)
    requires Coherent(s.facts)
    ensures Coherent(Apply(s, e).state.facts)
  {
    if ValidEvent(e) && Accepts(s.facts, e.req.payload) {
      EffectCoherent(s.facts, e.req.payload, e.seqNo == 0, e.recordedAt);
    }
  }

  // ---------------------------------------------------------------- success and failure

  /** An applied event moves the stream position to itself and keeps the twin. */
  lemma AppliedPosition(s: Twin, e: Event)
    requires Apply(s, e).error.None?
    ensures var t := Apply(s, e).state; t.twinId == s.twinId && t.seqNo == e.seqNo && t.lastHash == e.hash
  {}

  /** Whether an event is accepted depends on neither its identifier nor the time and hash of its seal. */
  lemma SealIrrelevant(s: Twin, a: Event, b: Event)
    requires a.req == b.req.(eventId := a.req.eventId) && a.seqNo == b.seqNo
    ensures Apply(s, a).error == Apply(s, b).error
  {}

  /**
    A rejected event leaves the state alone, with one exception that a caller can see beforehand:
    a valid event that binds a subject early, on a twin that has none, leaves the twin bound.
    It is why the service previews every event on a copy.
   */
  lemma RejectionLeaves(s: Twin, e: Event)
    requires Apply(s, e).error.Some?
    ensures Apply(s, e).state == s <==>
            !(ValidEvent(e) && !e.req.plane.Simulation? && s.facts.subject.None?
              && EarlySubject(s.facts, e.req.payload).Some? && EarlySubject(s.facts, e.req.payload).value != NO_ID)
  {}

  /** Once bound, a twin accepts nothing that names another subject. */
  lemma EffectKeepsSubject(s: Facts, p: Payload, at: int)
    requires Accepts(s, p) && s.subject.Some?
    ensures Effect(s, p, at).subject == s.subject
  {
    hide Grounded, ClaimsCiting, LinksCiting, ProjectionsDrawingOn, AllIn, CanCorrect, Without, Cites, DrawsOn;
    match p
    case EvidenceDeleted(_) =>
    case ClaimSuperseded(_, _) =>
    case ContradictionDetected(_, _) =>
    case ContradictionAdjudicated(_, _) =>
    case CorrectionRecorded(_, _) =>
    case _ => hide DeleteEvidence, SupersedeClaim, CorrectEvidence, CorrectClaim;
  }

  /** Such an event exists: a claim without evidence binds the twin and is then rejected. */
  lemma RejectionCanBind(twinId: Id, recordedAt: int)
    requires twinId != NO_ID
    ensures var claim := Claim(1, 1, 1, [Ref(1, 1, 1)], None, Validity(None, None), seq(7, _ => 0.5), 0);
            var req := Request(1, twinId, Authoritative, ClaimProposed(1, claim), 0, 1, 1, Given(1), V2, None, None);
            var o := Apply(EmptyTwin(twinId), Event(req, 1, recordedAt, NoHash, NoHash));
            o.error.Some? && o.state.facts.subject == Some(1) && EmptyTwin(twinId).facts.subject.None?
  {
    var claim := Claim(1, 1, 1, [Ref(1, 1, 1)], None, Validity(None, None), seq(7, _ => 0.5), 0);
    assert ValidPayload(ClaimProposed(1, claim), false);
    assert !Grounded(map[], claim.provenance) by {
      assert claim.provenance[0].evidence == 1;
    }
  }

  // ---------------------------------------------------------------- valid time

  /** A fact without a start is always valid; otherwise from its start on, and before its end. */
  predicate ValidAt(v: Validity, instant: int) {
    v.start.Some? ==> v.start.value <= instant && (v.end.Some? ==> instant < v.end.value)
  }

  /** The facts that are valid at the given time, with the marks that are placed on them. */
  function SelectValid(s: Facts, instant: int): Facts {
    var links := map k | k in s.links && ValidAt(s.links[k].body.validity, instant) :: s.links[k];
    var claims := map k | k in s.claims && ValidAt(s.claims[k].body.validity, instant) :: s.claims[k];
    var contradictions :=
      map k | k in s.contradictions && AllIn(s.contradictions[k].body.claims, claims.Keys) :: s.contradictions[k];
    s.(evidence := map k | k in s.evidence && ValidAt(s.evidence[k].validity, instant) :: s.evidence[k],
       links := links, unlinked := s.unlinked * links.Keys, staleLinks := s.staleLinks * links.Keys,
       claims := claims, accepted := s.accepted * claims.Keys, contested := s.contested * claims.Keys,
       retired := s.retired * claims.Keys, supersededClaims := s.supersededClaims * claims.Keys,
       staleClaims := s.staleClaims * claims.Keys,
       contradictions := contradictions, resolved := s.resolved * contradictions.Keys,
       adjudications := map k | k in s.adjudications && k in contradictions :: s.adjudications[k])
  }

  /** A selection of coherent facts keeps review states, contradictions and marks coherent. */
  lemma SelectionKeepsMarks(s: Facts, instant: int)
    requires Coherent(s)
    ensures var t := SelectValid(s, instant);
            && ReviewStatesAgree(t.claims.Keys, t.accepted, t.contested, t.retired + t.supersededClaims)
            && ContradictionsKnown(t.claims.Keys, t.contradictions) && MarksAgree(t)
  {
    hide ClaimsGrounded, LinksGrounded, ValidAt, Distinct;
  }

  lemma SelectionIsIdempotent(s: Facts, instant: int)
    ensures SelectValid(SelectValid(s, instant), instant) == SelectValid(s, instant)
  {
    hide ValidAt;
    var t := SelectValid(s, instant);
    var u := SelectValid(t, instant);
    assert u.evidence == t.evidence && u.links == t.links && u.claims == t.claims;
    assert u.contradictions == t.contradictions && u.adjudications == t.adjudications;
  }

  /** Every reference names evidence that is valid at the given time. */
  predicate CitesValid(evidence: map<Id, Evidence>, refs: seq<Ref>, instant: int) {
    forall i :: 0 <= i < |refs| ==> refs[i].evidence in evidence && ValidAt(evidence[refs[i].evidence].validity, instant)
  }

  lemma SelectedGrounds(evidence: map<Id, Evidence>, selected: map<Id, Evidence>, refs: seq<Ref>, instant: int)
    requires Grounded(evidence, refs)
    requires selected == map k | k in evidence && ValidAt(evidence[k].validity, instant) :: evidence[k]
    ensures Grounded(selected, refs) <==> CitesValid(evidence, refs, instant)
  {
    hide ValidAt;
  }

  /**
    It keeps claims grounded exactly if no live claim that is valid then cites evidence that is not; and
    likewise links.
   */
  lemma SelectionGroundsIffEvidenceValid(s: Facts, instant: int)
    requires Coherent(s)
    ensures var t := SelectValid(s, instant);
            ClaimsGrounded(t.evidence, t.claims, t.staleClaims)
            <==> forall c :: c in s.claims && c !in s.staleClaims && ValidAt(s.claims[c].body.validity, instant)
                   ==> CitesValid(s.evidence, s.claims[c].body.provenance, instant)
    ensures var t := SelectValid(s, instant);
            LinksGrounded(t.evidence, t.links, t.staleLinks)
            <==> forall l :: l in s.links && l !in s.staleLinks && ValidAt(s.links[l].body.validity, instant)
                   ==> CitesValid(s.evidence, s.links[l].body.provenance, instant)
  {
    hide ValidAt, Grounded, CitesValid, ReviewStatesAgree, ContradictionsKnown, MarksAgree;
    var t := SelectValid(s, instant);
    forall c | c in t.claims && c !in t.staleClaims
      ensures Grounded(t.evidence, t.claims[c].body.provenance)
         <==> CitesValid(s.evidence, s.claims[c].body.provenance, instant)
    {
      SelectedGrounds(s.evidence, t.evidence, s.claims[c].body.provenance, instant);
    }
    forall l | l in t.links && l !in t.staleLinks
      ensures Grounded(t.evidence, t.links[l].body.provenance)
         <==> CitesValid(s.evidence, s.links[l].body.provenance, instant)
    {
      SelectedGrounds(s.evidence, t.evidence, s.links[l].body.provenance, instant);
    }
    assert forall c :: c in t.claims && c !in t.staleClaims <==>
             c in s.claims && c !in s.staleClaims && ValidAt(s.claims[c].body.validity, instant);
    assert forall l :: l in t.links && l !in t.staleLinks <==>
             l in s.links && l !in s.staleLinks && ValidAt(s.links[l].body.validity, instant);
  }
}
