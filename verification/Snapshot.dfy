/**
  Snapshots: the dictionary form of a state, its hash-covered record, and the round trip back.
 */
module Snapshots {
  import opened Types
  import opened Orders
  import opened Aggregate

  /**
    The dictionary a state is stored as. Sets are ascending lists. The fields that older snapshots
    lack are optional; a field of the state is written in every new one.
   */
  datatype StateDict = StateDict(
    twinId: Id,
    subject: Option<Id>,
    seqNo: nat,
    evidence: map<Id, Evidence>,
    links: Option<map<Id, Recorded<Link>>>,
    unlinked: Option<seq<Id>>,
    staleLinks: Option<seq<Id>>,
    claims: map<Id, Recorded<Claim>>,
    accepted: seq<Id>,
    contested: seq<Id>,
    retired: Option<seq<Id>>,
    supersededEvidence: Option<seq<Id>>,
    supersededClaims: Option<seq<Id>>,
    contradictions: map<Id, Recorded<Contradiction>>,
    adjudications: Option<map<Id, Recorded<Adjudication>>>,
    resolved: Option<seq<Id>>,
    corrections: Option<map<Id, Recorded<Correction>>>,
    projections: map<Id, Projection>,
    revoked: seq<Id>,
    staleClaims: seq<Id>,
    staleProjections: seq<Id>,
    degraded: seq<Id>,
    lastHash: Hash)

  function ToDict(s: Twin): StateDict {
    var f := s.facts;
    StateDict(s.twinId, f.subject, s.seqNo, f.evidence, Some(f.links), Some(Sorted(f.unlinked)),
              Some(Sorted(f.staleLinks)), f.claims, Sorted(f.accepted), Sorted(f.contested),
              Some(Sorted(f.retired)), Some(Sorted(f.supersededEvidence)), Some(Sorted(f.supersededClaims)),
              f.contradictions, Some(f.adjudications), Some(Sorted(f.resolved)), Some(f.corrections),
              f.projections, Sorted(f.revoked), Sorted(f.staleClaims), Sorted(f.staleProjections),
              f.degraded, s.lastHash)
  }

  function ElementsOr(ids: Option<seq<Id>>): set<Id> {
    if ids.Some? then Elements(ids.value) else {}
  }

  function MapOr<V>(m: Option<map<Id, V>>): map<Id, V> {
    if m.Some? then m.value else map[]
  }

  function FromDict(d: StateDict): Result<Twin> {
    if d.seqNo < 1 || d.twinId == NO_ID || d.lastHash == NoHash then Err(InvariantViolation) else
      Ok(Twin(d.twinId, d.seqNo, d.lastHash,
              Facts(d.subject, d.evidence, MapOr(d.links), ElementsOr(d.unlinked), ElementsOr(d.staleLinks),
                    d.claims, Elements(d.accepted), Elements(d.contested), ElementsOr(d.retired),
                    ElementsOr(d.supersededEvidence), ElementsOr(d.supersededClaims), d.contradictions,
                    MapOr(d.adjudications), ElementsOr(d.resolved), MapOr(d.corrections), d.projections,
                    Elements(d.revoked), Elements(d.staleClaims), Elements(d.staleProjections), d.degraded)))
  }

  /** Decoding gives back what was encoded, exactly when the state has a place in a named stream. */
  lemma DictRoundTrip(s: Twin)
    ensures FromDict(ToDict(s)) == Ok(s) <==> s.seqNo >= 1 && s.twinId != NO_ID && s.lastHash != NoHash
  {
    var f := s.facts;
    assert ElementsOr(Some(Sorted(f.unlinked))) == f.unlinked;
    assert ElementsOr(Some(Sorted(f.staleLinks))) == f.staleLinks;
    assert ElementsOr(Some(Sorted(f.retired))) == f.retired;
    assert ElementsOr(Some(Sorted(f.supersededEvidence))) == f.supersededEvidence;
    assert ElementsOr(Some(Sorted(f.supersededClaims))) == f.supersededClaims;
    assert ElementsOr(Some(Sorted(f.resolved))) == f.resolved;
  }

  /** Two states with the same dictionary are the same state. */
  lemma DictDeterminesState(s: Twin, t: Twin)
    requires ToDict(s) == ToDict(t)
    ensures s == t
  {
    var f, g := s.facts, t.facts;
    assert f.unlinked == Elements(Sorted(f.unlinked)) == Elements(Sorted(g.unlinked)) == g.unlinked;
    assert f.staleLinks == Elements(Sorted(f.staleLinks)) == Elements(Sorted(g.staleLinks)) == g.staleLinks;
    assert f.retired == Elements(Sorted(f.retired)) == Elements(Sorted(g.retired)) == g.retired;
    assert f.supersededEvidence == Elements(Sorted(f.supersededEvidence))
                                == Elements(Sorted(g.supersededEvidence)) == g.supersededEvidence;
    assert f.supersededClaims == Elements(Sorted(f.supersededClaims))
                              == Elements(Sorted(g.supersededClaims)) == g.supersededClaims;
    assert f.resolved == Elements(Sorted(f.resolved)) == Elements(Sorted(g.resolved)) == g.resolved;
  }

  /** The hash of a snapshot covers its position and its state. */
  datatype StateHash = StateHash(twinId: Id, seqNo: nat, lastHash: Hash, state: StateDict)

  datatype Snapshot = Snapshot(twinId: Id, seqNo: nat, lastHash: Hash, state: StateDict,
                               stateHash: StateHash, createdAt: int)

  function ToSnapshot(s: Twin, createdAt: int): Snapshot {
    Snapshot(s.twinId, s.seqNo, s.lastHash, ToDict(s),
             StateHash(s.twinId, s.seqNo, s.lastHash, ToDict(s)), createdAt)
  }

  predicate SnapshotVerifies(x: Snapshot) {
    && x.seqNo >= 1 && x.twinId != NO_ID && x.lastHash != NoHash
    && x.stateHash == StateHash(x.twinId, x.seqNo, x.lastHash, x.state)
  }

  /** The state a snapshot stands for, after the checks that replay makes before it starts from it. */
  function Restore(x: Snapshot): Result<Twin> {
    if !SnapshotVerifies(x) then Err(IntegrityError) else
      match FromDict(x.state)
      case Err(e) => Err(e)
      case Ok(s) =>
        if s.twinId != x.twinId || s.seqNo != x.seqNo || s.lastHash != x.lastHash then Err(InvariantViolation)
        else Ok(s)
  }

  lemma RestoreRoundTrip(s: Twin, createdAt: int)
    ensures Restore(ToSnapshot(s, createdAt)) == Ok(s) <==> s.seqNo >= 1 && s.twinId != NO_ID && s.lastHash != NoHash
  {
    DictRoundTrip(s);
  }
}
