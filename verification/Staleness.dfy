/**
  How invalidity spreads to claims and projections over a whole run: what is marked stale, from
  when on, and the two cases in which the marks are less than one would expect.
 */
module Staleness {
  import opened Types
  import opened Aggregate
  import opened Fold

  /** The facts of a replayable ledger after its first n events. */
  function FactsAt(twinId: Id, events: seq<Event>, n: nat): Facts
    requires FoldAll(twinId, events).Ok? && n <= |events|
  {
    PrefixReplays(EmptyTwin(twinId), events, n);
    FoldAll(twinId, events[..n]).value.facts
  }

  predicate CitesAny(refs: seq<Ref>, evidence: set<Id>) {
    exists i :: 0 <= i < |refs| && refs[i].evidence in evidence
  }

  /** What is known stays known and what is marked stays marked. */
  predicate Grows(s: Facts, t: Facts) {
    && s.staleClaims <= t.staleClaims && s.staleProjections <= t.staleProjections
    && s.supersededClaims <= t.supersededClaims && s.supersededEvidence <= t.supersededEvidence
    && (forall p :: p in s.projections ==> p in t.projections && t.projections[p] == s.projections[p])
    && (forall c :: c in s.claims ==> c in t.claims && t.claims[c] == s.claims[c])
  }

  /** The claim has become stale or superseded between two points of a run. */
  predicate Invalidated(s: Facts, t: Facts, claim: Id) {
    (claim in t.staleClaims && claim !in s.staleClaims) || (claim in t.supersededClaims && claim !in s.supersededClaims)
  }

  /** A claim that becomes stale or superseded takes the projections that draw on it along. */
  predicate MarksSpread(s: Facts, t: Facts) {
    && (forall p, c :: p in s.projections && c in s.projections[p].sources && Invalidated(s, t, c)
          ==> p in t.staleProjections)
    && (forall c :: c in s.claims
          && CitesAny(s.claims[c].body.provenance, t.supersededEvidence - s.supersededEvidence)
          ==> c in t.staleClaims)
  }

  lemma DeletionSpreads(s: Facts, id: Id)
    ensures Grows(s, DeleteEvidence(s, id)) && MarksSpread(s, DeleteEvidence(s, id))
  {}

  lemma SupersessionSpreads(s: Facts, id: Id)
    ensures Grows(s, SupersedeClaim(s, id)) && MarksSpread(s, SupersedeClaim(s, id))
  {}

  lemma EvidenceCorrectionSpreads(s: Facts, id: Id, b: Correction, at: int)
    ensures Grows(s, CorrectEvidence(s, id, b, at)) && MarksSpread(s, CorrectEvidence(s, id, b, at))
  {
    var t := CorrectEvidence(s, id, b, at);
    forall c | c in s.claims && CitesAny(s.claims[c].body.provenance, t.supersededEvidence - s.supersededEvidence)
      ensures c in t.staleClaims
    {
      assert Cites(s.claims[c].body.provenance, b.target);
    }
  }

  lemma ClaimCorrectionSpreads(s: Facts, id: Id, b: Correction, at: int)
    ensures Grows(s, CorrectClaim(s, id, b, at)) && MarksSpread(s, CorrectClaim(s, id, b, at))
  {}

  lemma NothingSpreads(s: Facts, t: Facts)
    requires t.staleClaims == s.staleClaims && t.supersededClaims == s.supersededClaims
    requires t.supersededEvidence == s.supersededEvidence
    ensures MarksSpread(s, t)
  {}

  lemma OthersLeaveMarks(s: Facts, p: Payload, at: int)
    requires !p.EvidenceDeleted? && !p.ClaimSuperseded? && !p.CorrectionRecorded? && Accepts(s, p)
    ensures Grows(s, Effect(s, p, at))
    ensures MarksSpread(s, Effect(s, p, at))
  {
    hide MarksSpread, Grounded, AllIn, Without;
    assert Effect(s, p, at).supersededEvidence == s.supersededEvidence;
    NothingSpreads(s, Effect(s, p, at));
  }

  lemma PayloadSpreads(s: Facts, p: Payload, at: int)
    requires Accepts(s, p)
    ensures Grows(s, Effect(s, p, at)) && MarksSpread(s, Effect(s, p, at))
  {
    hide Grows, MarksSpread, DeleteEvidence, SupersedeClaim, CorrectEvidence, CorrectClaim, Grounded, AllIn;
    match p
    case EvidenceDeleted(id) => DeletionSpreads(s, id);
    case ClaimSuperseded(id, _) => SupersessionSpreads(s, id);
    case CorrectionRecorded(id, b) =>
      if b.kind.EvidenceTarget? {
        EvidenceCorrectionSpreads(s, id, b, at);
      } else {
        ClaimCorrectionSpreads(s, id, b, at);
      }
    case _ => OthersLeaveMarks(s, p, at);
  }

  lemma StepSpreads(twinId: Id, events: seq<Event>, n: nat)
    requires FoldAll(twinId, events).Ok? && n < |events|
    ensures Grows(FactsAt(twinId, events, n), FactsAt(twinId, events, n + 1))
    ensures MarksSpread(FactsAt(twinId, events, n), FactsAt(twinId, events, n + 1))
    ensures Accepts(FactsAt(twinId, events, n), events[n].req.payload)
    ensures Effect(FactsAt(twinId, events, n), events[n].req.payload, events[n].recordedAt)
         == FactsAt(twinId, events, n + 1)
  {
    hide Accepts, Effect, LeftBehind, ValidEvent, Grows, MarksSpread;
    PrefixReplays(EmptyTwin(twinId), events, n);
    PrefixReplays(EmptyTwin(twinId), events, n + 1);
    FoldSnoc(EmptyTwin(twinId), events[..n], events[n]);
    assert events[..n] + [events[n]] == events[..n + 1];
    PayloadSpreads(FactsAt(twinId, events, n), events[n].req.payload, events[n].recordedAt);
  }

  lemma {:induction false} RunGrows(twinId: Id, events: seq<Event>, i: nat, j: nat)
    requires FoldAll(twinId, events).Ok? && i <= j <= |events|
    ensures Grows(FactsAt(twinId, events, i), FactsAt(twinId, events, j))
  {
    if i < j {
      RunGrows(twinId, events, i, j - 1);
      StepSpreads(twinId, events, j - 1);
    }
  }

  lemma {:induction false} StaleSourceMarksProjection(
    twinId: Id, events: seq<Event>, i: nat, j: nat, projection: Id, claim: Id)
    requires FoldAll(twinId, events).Ok? && i <= j <= |events|
    requires projection in FactsAt(twinId, events, i).projections
    requires claim in FactsAt(twinId, events, i).projections[projection].sources
    requires Invalidated(FactsAt(twinId, events, i), FactsAt(twinId, events, j), claim)
    ensures projection in FactsAt(twinId, events, j).staleProjections
    decreases j
  {
    var start, before, after := FactsAt(twinId, events, i), FactsAt(twinId, events, j - 1), FactsAt(twinId, events, j);
    StepSpreads(twinId, events, j - 1);
    if Invalidated(start, before, claim) {
      StaleSourceMarksProjection(twinId, events, i, j - 1, projection, claim);
    } else {
      RunGrows(twinId, events, i, j - 1);
      assert Invalidated(before, after, claim);
    }
  }

  /**
    Once a source of an issued projection becomes stale or superseded, the projection is marked,
    and it stays marked however the run goes on.
   */
  lemma StaleSourceMarksProjectionForever(
    twinId: Id, events: seq<Event>, i: nat, j: nat, k: nat, projection: Id, claim: Id)
    requires FoldAll(twinId, events).Ok? && i <= j <= k <= |events|
    requires projection in FactsAt(twinId, events, i).projections
    requires claim in FactsAt(twinId, events, i).projections[projection].sources
    requires Invalidated(FactsAt(twinId, events, i), FactsAt(twinId, events, j), claim)
    ensures projection in FactsAt(twinId, events, k).staleProjections
  {
    StaleSourceMarksProjection(twinId, events, i, j, projection, claim);
    RunGrows(twinId, events, j, k);
  }

  lemma ReachableFacts(twinId: Id, events: seq<Event>, n: nat)
    requires FoldAll(twinId, events).Ok? && n <= |events|
    ensures Coherent(FactsAt(twinId, events, n))
  {
    PrefixReplays(EmptyTwin(twinId), events, n);
    ReachableIsCoherent(twinId, events[..n]);
  }

  /**
    A projection that draws on a stale claim need not be marked: issuing it does not look. It is
    marked at every later point of the run exactly if no source was stale when it was issued.
   */
  lemma ProjectionMarkedIffIssuedFresh(twinId: Id, events: seq<Event>, t: nat)
    requires FoldAll(twinId, events).Ok? && t < |events| && events[t].req.payload.ProjectionIssued?
    ensures var p, b := events[t].req.payload.projection, events[t].req.payload.projectionBody;
            (forall k :: t < k <= |events| && DrawsOn(b, FactsAt(twinId, events, k).staleClaims)
              ==> p in FactsAt(twinId, events, k).staleProjections)
            <==> !DrawsOn(b, FactsAt(twinId, events, t).staleClaims)
  {
    var p, b := events[t].req.payload.projection, events[t].req.payload.projectionBody;
    StepSpreads(twinId, events, t);
    ReachableFacts(twinId, events, t);
    var after := FactsAt(twinId, events, t + 1);
    assert p in after.projections && p !in after.staleProjections;
    if !DrawsOn(b, FactsAt(twinId, events, t).staleClaims) {
      forall k | t < k <= |events| && DrawsOn(b, FactsAt(twinId, events, k).staleClaims)
        ensures p in FactsAt(twinId, events, k).staleProjections
      {
        var c :| c in b.sources && c in FactsAt(twinId, events, k).staleClaims;
        assert c !in after.staleClaims;
        StaleSourceMarksProjectionForever(twinId, events, t + 1, k, k, p, c);
      }
    } else {
      assert DrawsOn(b, FactsAt(twinId, events, t + 1).staleClaims);
    }
  }

  lemma {:induction false} SupersededEvidenceMarksClaim(
    twinId: Id, events: seq<Event>, i: nat, j: nat, claim: Id, evidence: Id)
    requires FoldAll(twinId, events).Ok? && i <= j <= |events|
    requires claim in FactsAt(twinId, events, i).claims
    requires Cites(FactsAt(twinId, events, i).claims[claim].body.provenance, evidence)
    requires evidence in FactsAt(twinId, events, j).supersededEvidence - FactsAt(twinId, events, i).supersededEvidence
    ensures claim in FactsAt(twinId, events, j).staleClaims
  {
    RunGrows(twinId, events, i, j - 1);
    StepSpreads(twinId, events, j - 1);
    var before, after := FactsAt(twinId, events, j - 1), FactsAt(twinId, events, j);
    if evidence in before.supersededEvidence {
      SupersededEvidenceMarksClaim(twinId, events, i, j - 1, claim, evidence);
    } else {
      var refs := before.claims[claim].body.provenance;
      assert CitesAny(refs, after.supersededEvidence - before.supersededEvidence);
    }
  }

  /**
    A claim that cites corrected evidence need not be stale: proposing it does not look. It is
    stale at every later point exactly if it cited no corrected evidence when it was proposed.
   */
  lemma ClaimStaleIffProposedFresh(twinId: Id, events: seq<Event>, t: nat)
    requires FoldAll(twinId, events).Ok? && t < |events| && events[t].req.payload.ClaimProposed?
    ensures var c, b := events[t].req.payload.claim, events[t].req.payload.claimBody;
            (forall k :: t < k <= |events| && CitesAny(b.provenance, FactsAt(twinId, events, k).supersededEvidence)
              ==> c in FactsAt(twinId, events, k).staleClaims)
            <==> !CitesAny(b.provenance, FactsAt(twinId, events, t).supersededEvidence)
  {
    var c, b := events[t].req.payload.claim, events[t].req.payload.claimBody;
    StepSpreads(twinId, events, t);
    ReachableFacts(twinId, events, t);
    var after := FactsAt(twinId, events, t + 1);
    assert c in after.claims && c !in after.staleClaims;
    if !CitesAny(b.provenance, FactsAt(twinId, events, t).supersededEvidence) {
      forall k | t < k <= |events| && CitesAny(b.provenance, FactsAt(twinId, events, k).supersededEvidence)
        ensures c in FactsAt(twinId, events, k).staleClaims
      {
        var i :| 0 <= i < |b.provenance| && b.provenance[i].evidence in FactsAt(twinId, events, k).supersededEvidence;
        assert b.provenance[i].evidence !in after.supersededEvidence;
        SupersededEvidenceMarksClaim(twinId, events, t + 1, k, c, b.provenance[i].evidence);
      }
    } else {
      assert CitesAny(b.provenance, FactsAt(twinId, events, t + 1).supersededEvidence);
    }
  }
}
