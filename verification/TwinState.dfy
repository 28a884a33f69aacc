/**
  The mutable state object of one twin. `ApplyEvent` updates it in place, step by step and event
  type by event type, exactly as far as the transition functions of module Aggregate say, also
  when it fails half-way. Its dictionaries and sets are the fields of the record `facts`.
 */
module TwinObject {
  import opened Types
  import opened Aggregate

  class TwinState {
    const twinId: Id
    var seqNo: nat
    var lastHash: Hash
    var facts: Facts

    function View(): Twin
      reads this
    {
      Twin(twinId, seqNo, lastHash, facts)
    }

    /** A state object holding the given value: an empty twin, a decoded snapshot, or a deep copy. */
    constructor (v: Twin)
      ensures View() == v
    {
      twinId, seqNo, lastHash, facts := v.twinId, v.seqNo, v.lastHash, v.facts;
    }

    method Bind(subject: Id) returns (ok: bool)
      modifies this`facts
      ensures ok == CanBind(old(facts), subject)
      ensures facts == if ok then old(facts).(subject := Some(subject)) else old(facts)
    {
      if subject == NO_ID || (facts.subject.Some? && facts.subject.value != subject) {
        return false;
      }
      facts := facts.(subject := Some(subject));
      return true;
    }

    method ProvenanceResolves(refs: seq<Ref>) returns (ok: bool)
      ensures ok == Grounded(facts.evidence, refs)
    {
      for i := 0 to |refs|
        invariant forall k :: 0 <= k < i ==>
          refs[k].evidence in facts.evidence && facts.evidence[refs[k].evidence].group == refs[k].group
      {
        if refs[i].evidence !in facts.evidence || facts.evidence[refs[i].evidence].group != refs[i].group {
          return false;
        }
      }
      return true;
    }

    // The three marking loops run over the keys of a dictionary, in an order that does not matter.

    method MarkLinksCiting(id: Id)
      modifies this`facts
      ensures facts == old(facts).(staleLinks := old(facts.staleLinks) + LinksCiting(old(facts.links), id))
    {
      var todo := facts.links.Keys;
      ghost var cited := LinksCiting(facts.links, id);
      while todo != {}
        invariant todo <= facts.links.Keys
        invariant facts == old(facts).(staleLinks := old(facts.staleLinks) + (cited - todo))
        decreases todo
      {
        var l :| l in todo;
        if Cites(facts.links[l].body.provenance, id) {
          facts := facts.(staleLinks := facts.staleLinks + {l});
        }
        todo := todo - {l};
        assert facts.staleLinks == old(facts.staleLinks) + (cited - todo);
      }
      assert cited - todo == cited;
    }

    method MarkClaimsCiting(id: Id)
      modifies this`facts
      ensures facts == old(facts).(staleClaims := old(facts.staleClaims) + ClaimsCiting(old(facts.claims), id))
    {
      var todo := facts.claims.Keys;
      ghost var cited := ClaimsCiting(facts.claims, id);
      while todo != {}
        invariant todo <= facts.claims.Keys
        invariant facts == old(facts).(staleClaims := old(facts.staleClaims) + (cited - todo))
        decreases todo
      {
        var c :| c in todo;
        if Cites(facts.claims[c].body.provenance, id) {
          facts := facts.(staleClaims := facts.staleClaims + {c});
        }
        todo := todo - {c};
        assert facts.staleClaims == old(facts.staleClaims) + (cited - todo);
      }
      assert cited - todo == cited;
    }

    method MarkProjectionsDrawingOn(sources: set<Id>)
      modifies this`facts
      ensures facts == old(facts).(staleProjections :=
        old(facts.staleProjections) + ProjectionsDrawingOn(old(facts.projections), sources))
    {
      var todo := facts.projections.Keys;
      ghost var drawing := ProjectionsDrawingOn(facts.projections, sources);
      while todo != {}
        invariant todo <= facts.projections.Keys
        invariant facts == old(facts).(staleProjections := old(facts.staleProjections) + (drawing - todo))
        decreases todo
      {
        var p :| p in todo;
        if DrawsOn(facts.projections[p], sources) {
          facts := facts.(staleProjections := facts.staleProjections + {p});
        }
        todo := todo - {p};
        assert facts.staleProjections == old(facts.staleProjections) + (drawing - todo);
      }
      assert drawing - todo == drawing;
    }

    // The event types whose transition has a loop, or can fail after it has bound the subject.

    method OnEvidenceIngested(id: Id, b: Evidence, at: int) returns (ok: bool)
      modifies this`facts
      ensures Outcome(facts, ok) == ApplyPayload(old(facts), EvidenceIngested(id, b), at)
    {
      ok := Bind(b.subject);
      if !ok || id in facts.evidence {
        return false;
      }
      facts := facts.(evidence := facts.evidence[id := b]);
    }

    method OnEntityLinked(id: Id, b: Link, at: int) returns (ok: bool)
      modifies this`facts
      ensures Outcome(facts, ok) == ApplyPayload(old(facts), EntityLinked(id, b), at)
    {
      ok := Bind(b.subject);
      if ok {
        ok := ProvenanceResolves(b.provenance);
      }
      if !ok || id in facts.links {
        return false;
      }
      facts := facts.(links := facts.links[id := Recorded(b, at)]);
    }

    method OnEvidenceDeleted(id: Id, at: int) returns (ok: bool)
      modifies this`facts
      ensures Outcome(facts, ok) == ApplyPayload(old(facts), EvidenceDeleted(id), at)
    {
      if id !in facts.evidence {
        return false;
      }
      facts := facts.(evidence := facts.evidence - {id});
      MarkLinksCiting(id);
      MarkClaimsCiting(id);
      MarkProjectionsDrawingOn(facts.staleClaims);
      return true;
    }

    method OnClaimProposed(id: Id, b: Claim, at: int) returns (ok: bool)
      modifies this`facts
      ensures Outcome(facts, ok) == ApplyPayload(old(facts), ClaimProposed(id, b), at)
    {
      ok := Bind(b.subject);
      if ok {
        ok := ProvenanceResolves(b.provenance);
      }
      if !ok || id in facts.claims {
        return false;
      }
      facts := facts.(claims := facts.claims[id := Recorded(b, at)]);
    }

    method OnClaimSuperseded(id: Id, successor: Id, at: int) returns (ok: bool)
      modifies this`facts
      ensures Outcome(facts, ok) == ApplyPayload(old(facts), ClaimSuperseded(id, successor), at)
    {
      if successor == NO_ID || id !in facts.claims || successor !in facts.claims || id in facts.supersededClaims {
        return false;
      }
      facts := facts.(accepted := facts.accepted - {id}, contested := facts.contested - {id},
                      supersededClaims := facts.supersededClaims + {id});
      MarkProjectionsDrawingOn({id});
      return true;
    }

    method OnContradictionDetected(id: Id, b: Contradiction, at: int) returns (ok: bool)
      modifies this`facts
      ensures Outcome(facts, ok) == ApplyPayload(old(facts), ContradictionDetected(id, b), at)
    {
      if id in facts.contradictions {
        return false;
      }
      if b.subject.Some? {
        ok := Bind(b.subject.value);
        if !ok {
          return false;
        }
      }
      if !AllIn(b.claims, facts.claims.Keys) {
        return false;
      }
      facts := facts.(contradictions := facts.contradictions[id := Recorded(b, at)]);
      return true;
    }

    method OnContradictionAdjudicated(id: Id, b: Adjudication, at: int) returns (ok: bool)
      modifies this`facts
      ensures Outcome(facts, ok) == ApplyPayload(old(facts), ContradictionAdjudicated(id, b), at)
    {
      if id !in facts.contradictions || id in facts.resolved {
        return false;
      }
      var claimIds := set c | c in facts.contradictions[id].body.claims;
      if !AllIn(b.preferred, claimIds) || (b.resolution in {Uphold, Corrected} && b.preferred == []) {
        return false;
      }
      ok := Bind(b.subject);
      if ok {
        facts := facts.(adjudications := facts.adjudications[id := Recorded(b, at)],
                        resolved := facts.resolved + {id});
      }
    }

    method OnCorrectionRecorded(id: Id, b: Correction, at: int) returns (ok: bool)
      modifies this`facts
      ensures Outcome(facts, ok) == ApplyPayload(old(facts), CorrectionRecorded(id, b), at)
    {
      ok := Bind(b.subject);
      if !ok || id in facts.corrections {
        return false;
      }
      var known := if b.kind.EvidenceTarget? then facts.evidence.Keys else facts.claims.Keys;
      var superseded := if b.kind.EvidenceTarget? then facts.supersededEvidence else facts.supersededClaims;
      if || b.target !in known || b.replacement !in known
         || b.target in superseded || b.replacement in superseded {
        return false;
      }
      facts := facts.(corrections := facts.corrections[id := Recorded(b, at)]);
      if b.kind.EvidenceTarget? {
        facts := facts.(supersededEvidence := facts.supersededEvidence + {b.target});
        MarkLinksCiting(b.target);
        MarkClaimsCiting(b.target);
        MarkProjectionsDrawingOn(facts.staleClaims);
      } else {
        facts := facts.(supersededClaims := facts.supersededClaims + {b.target},
                        accepted := facts.accepted - {b.target}, contested := facts.contested - {b.target});
        MarkProjectionsDrawingOn({b.target});
      }
    }

    // The event types that test and set single fields.

    method OnEntityUnlinked(id: Id, reason: Id, at: int) returns (ok: bool)
      modifies this`facts
      ensures Outcome(facts, ok) == ApplyPayload(old(facts), EntityUnlinked(id, reason), at)
    {
      if id !in facts.links || id in facts.unlinked {
        return false;
      }
      facts := facts.(unlinked := facts.unlinked + {id});
      return true;
    }

    /** Whether a claim can still be accepted or contested. */
    predicate InReview(id: Id)
      reads this
    {
      id in facts.claims && !(id in facts.retired || id in facts.supersededClaims)
    }

    method OnClaimAccepted(id: Id, at: int) returns (ok: bool)
      modifies this`facts
      ensures Outcome(facts, ok) == ApplyPayload(old(facts), ClaimAccepted(id), at)
    {
      if !InReview(id) {
        return false;
      }
      facts := facts.(accepted := facts.accepted + {id});
      facts := facts.(contested := facts.contested - {id});
      return true;
    }

    method OnClaimContested(id: Id, at: int) returns (ok: bool)
      modifies this`facts
      ensures Outcome(facts, ok) == ApplyPayload(old(facts), ClaimContested(id), at)
    {
      if !InReview(id) {
        return false;
      }
      facts := facts.(contested := facts.contested + {id});
      facts := facts.(accepted := facts.accepted - {id});
      return true;
    }

    method OnClaimRetired(id: Id, at: int) returns (ok: bool)
      modifies this`facts
      ensures Outcome(facts, ok) == ApplyPayload(old(facts), ClaimRetired(id), at)
    {
      if id !in facts.claims {
        return false;
      }
      facts := facts.(accepted := facts.accepted - {id});
      facts := facts.(contested := facts.contested - {id});
      facts := facts.(retired := facts.retired + {id});
      return true;
    }

    method OnProjectionIssued(id: Id, b: Projection, at: int) returns (ok: bool)
      modifies this`facts
      ensures Outcome(facts, ok) == ApplyPayload(old(facts), ProjectionIssued(id, b), at)
    {
      if facts.subject.None? || id in facts.projections {
        return false;
      }
      facts := facts.(projections := facts.projections[id := b]);
      return true;
    }

    method OnProjectionRevoked(id: Id, at: int) returns (ok: bool)
      modifies this`facts
      ensures Outcome(facts, ok) == ApplyPayload(old(facts), ProjectionRevoked(id), at)
    {
      if id !in facts.projections {
        return false;
      }
      facts := facts.(revoked := facts.revoked + {id});
      return true;
    }

    /** Every occurrence of the reason goes; the others keep their order. */
    method OnDegradationCleared(reason: Id, at: int) returns (ok: bool)
      modifies this`facts
      ensures Outcome(facts, ok) == ApplyPayload(old(facts), DegradationCleared(reason), at)
    {
      var kept: seq<Id> := [];
      for i := 0 to |facts.degraded|
        invariant facts == old(facts)
        invariant kept + Without(facts.degraded[i..], reason) == Without(facts.degraded, reason)
      {
        if facts.degraded[i] != reason {
          kept := kept + [facts.degraded[i]];
        }
        assert facts.degraded[i..][1..] == facts.degraded[i + 1..];
      }
      facts := facts.(degraded := kept);
      return true;
    }

    /** A copy restricted to what is valid at the given time; the state itself stays as it is. */
    method SelectValidAt(instant: int) returns (selected: TwinState)
      ensures fresh(selected) && selected.View() == View().(facts := SelectValid(facts, instant))
    {
      selected := new TwinState(View());
      var f := selected.facts;
      var evidence := map k | k in f.evidence && ValidAt(f.evidence[k].validity, instant) :: f.evidence[k];
      var links := map k | k in f.links && ValidAt(f.links[k].body.validity, instant) :: f.links[k];
      var claims := map k | k in f.claims && ValidAt(f.claims[k].body.validity, instant) :: f.claims[k];
      selected.facts := selected.facts.(evidence := evidence, links := links, claims := claims);
      selected.facts := selected.facts.(unlinked := f.unlinked * links.Keys, staleLinks := f.staleLinks * links.Keys);
      selected.facts := selected.facts.(accepted := f.accepted * claims.Keys, contested := f.contested * claims.Keys,
                                        retired := f.retired * claims.Keys,
                                        supersededClaims := f.supersededClaims * claims.Keys,
                                        staleClaims := f.staleClaims * claims.Keys);
      var open := map k | k in f.contradictions && AllIn(f.contradictions[k].body.claims, claims.Keys) :: f.contradictions[k];
      selected.facts := selected.facts.(contradictions := open, resolved := f.resolved * open.Keys);
      selected.facts := selected.facts.(adjudications := map k | k in f.adjudications && k in open :: f.adjudications[k]);
    }

    method ApplyByType(p: Payload, at: int) returns (ok: bool)
      modifies this`facts
      ensures Outcome(facts, ok) == ApplyPayload(old(facts), p, at)
    {
      match p {
        case EvidenceIngested(id, b) => ok := OnEvidenceIngested(id, b, at);
        case EntityLinked(id, b) => ok := OnEntityLinked(id, b, at);
        case EvidenceDeleted(id) => ok := OnEvidenceDeleted(id, at);
        case ClaimProposed(id, b) => ok := OnClaimProposed(id, b, at);
        case ClaimSuperseded(id, successor) => ok := OnClaimSuperseded(id, successor, at);
        case ContradictionDetected(id, b) => ok := OnContradictionDetected(id, b, at);
        case ContradictionAdjudicated(id, b) => ok := OnContradictionAdjudicated(id, b, at);
        case CorrectionRecorded(id, b) => ok := OnCorrectionRecorded(id, b, at);
        case EntityUnlinked(id, reason) => ok := OnEntityUnlinked(id, reason, at);
        case ClaimAccepted(id) => ok := OnClaimAccepted(id, at);
        case ClaimContested(id) => ok := OnClaimContested(id, at);
        case ClaimRetired(id) => ok := OnClaimRetired(id, at);
        case ProjectionIssued(id, b) => ok := OnProjectionIssued(id, b, at);
        case ProjectionRevoked(id) => ok := OnProjectionRevoked(id, at);
        case DegradationDeclared(reason) =>
          facts, ok := facts.(degraded := facts.degraded + [reason]), true;
        case DegradationCleared(reason) => ok := OnDegradationCleared(reason, at);
        case OtherEvent(_) => ok := true;
      }
    }

    /** Apply one event in place. A failure may leave the subject bound, and nothing else changed. */
    method ApplyEvent(e: Event) returns (error: Option<Error>)
      modifies this
      ensures Applied(View(), error) == Apply(old(View()), e)
    {
      if !ValidEvent(e) || e.req.plane.Simulation? {
        return Some(InvariantViolation);
      }
      var ok := ApplyByType(e.req.payload, e.recordedAt);
      if !ok {
        return Some(InvariantViolation);
      }
      seqNo := e.seqNo;
      lastHash := e.hash;
      return None;
    }
  }
}
