/**
  The kernel compiler and the projection compiler: what leaves a twin at the consent boundary, and
  that it depends on nothing but the claims that the request may see.

  Policy, fresh identifiers and content hashes are not part of the model: the decision of the policy,
  which is made from the request and the consent alone, and the clock are arguments.
 */
module Compiler {
  import opened Types
  import opened Orders
  import opened Aggregate

  // The artifact names, numbered in their alphabetical order.
  const BOUNDARIES: Id := 1
  const CAPABILITIES: Id := 2
  const COUNTERWEIGHTS: Id := 3
  const DECISION_MODEL: Id := 4
  const HISTORY: Id := 5
  const KERNEL: Id := 6
  const NOW: Id := 7
  const PEOPLE: Id := 8
  const READINESS: Id := 9
  const VOICE: Id := 10

  const ARTIFACT_FIELDS: set<Id> := {BOUNDARIES, CAPABILITIES, COUNTERWEIGHTS, DECISION_MODEL, HISTORY, KERNEL, NOW,
                                     PEOPLE, READINESS, VOICE}

  // The claim kinds that have an artifact of their own.
  const CURRENT_STATE_KIND: Id := 1
  const COMMUNICATION_KIND: Id := 2
  const RELATIONSHIP_KIND: Id := 3
  const CAPABILITY_KIND: Id := 4
  const DECISION_HEURISTIC_KIND: Id := 5
  const BOUNDARY_KIND: Id := 6
  const EVENT_KIND: Id := 7

  const CLAIM_KIND_TO_ARTIFACT: map<Id, Id> := map[
    CURRENT_STATE_KIND := NOW, COMMUNICATION_KIND := VOICE, RELATIONSHIP_KIND := PEOPLE,
    CAPABILITY_KIND := CAPABILITIES, DECISION_HEURISTIC_KIND := DECISION_MODEL, BOUNDARY_KIND := BOUNDARIES,
    EVENT_KIND := HISTORY]

  // ---------------------------------------------------------------- which claims a request may see

  datatype Scope = Scope(validAt: Option<int>, knownAt: Option<int>, maximum: Option<Sensitivity>)

  datatype Verdict = Shown | Hidden | Malformed

  /** The three filters in the order of the code; a claim that a filter cannot read raises. */
  function Judge(c: Recorded<Claim>, scope: Scope): Verdict {
    var validity := c.body.validity;
    if scope.maximum.Some? && c.body.sensitivity.None? then Malformed
    else if scope.maximum.Some? && c.body.sensitivity.value.Rank() > scope.maximum.value.Rank() then Hidden
    else if scope.validAt.Some? && validity.start.None? then Malformed
    else if scope.validAt.Some? && scope.validAt.value < validity.start.value then Hidden
    else if scope.validAt.Some? && validity.end.Some? && scope.validAt.value >= validity.end.value then Hidden
    else if scope.knownAt.Some? && c.recordedAt > scope.knownAt.value then Hidden
    else Shown
  }

  datatype ClaimView = ClaimView(id: Id, claim: Recorded<Claim>)

  /** What one claim adds to a collection that may already have failed. */
  function CollectOne(found: Result<seq<ClaimView>>, claims: map<Id, Recorded<Claim>>, c: Id, skip: set<Id>,
                      scope: Scope): Result<seq<ClaimView>>
  {
    if found.Err? || c in skip then found
    else if c !in claims then Err(InvalidValue)
    else
      match Judge(claims[c], scope)
      case Malformed => Err(InvalidValue)
      case Hidden => found
      case Shown => Ok(found.value + [ClaimView(c, claims[c])])
  }

  function Collect(claims: map<Id, Recorded<Claim>>, ids: seq<Id>, skip: set<Id>, scope: Scope): Result<seq<ClaimView>> {
    if ids == [] then Ok([]) else
      CollectOne(Collect(claims, ids[..|ids| - 1], skip, scope), claims, ids[|ids| - 1], skip, scope)
  }

  function Withdrawn(s: Facts): set<Id> {
    s.staleClaims + s.retired + s.supersededClaims
  }

  function AcceptedClaims(s: Facts, scope: Scope): Result<seq<ClaimView>> {
    Collect(s.claims, Sorted(s.accepted), Withdrawn(s), scope)
  }

  /** Contested claims skip what is stale or unknown, but not what is retired or superseded. */
  function ContestedClaims(s: Facts, scope: Scope): Result<seq<ClaimView>> {
    Collect(s.claims, Sorted(s.contested), s.staleClaims + (s.contested - s.claims.Keys), scope)
  }

  /** A collection that fails on a prefix fails on the whole. */
  lemma {:induction false} CollectFails(claims: map<Id, Recorded<Claim>>, ids: seq<Id>, skip: set<Id>, scope: Scope, n: nat)
    requires n <= |ids|
    ensures Collect(claims, ids[..n], skip, scope).Err? ==> Collect(claims, ids, skip, scope).Err?
    ensures Collect(claims, ids, skip, scope).Err? ==> Collect(claims, ids, skip, scope).error == InvalidValue
    decreases |ids|
  {
    if n == |ids| {
      assert ids[..n] == ids;
      if ids != [] {
        CollectFails(claims, ids[..n - 1], skip, scope, n - 1);
      }
    } else {
      assert ids[..|ids| - 1][..n] == ids[..n];
      CollectFails(claims, ids[..|ids| - 1], skip, scope, n);
    }
  }

  /** The loop of accepted_claims: skip what is withdrawn or hidden, stop at what cannot be judged. */
  method CollectAccepted(s: Facts, scope: Scope) returns (r: Result<seq<ClaimView>>)
    ensures r == AcceptedClaims(s, scope)
  {
    hide Judge, Sorted;
    var ids := Sorted(s.accepted);
    var selected: seq<ClaimView> := [];
    for i := 0 to |ids|
      invariant Collect(s.claims, ids[..i], Withdrawn(s), scope) == Ok(selected)
    {
      var c := ids[i];
      assert ids[..i + 1][..i] == ids[..i];
      CollectFails(s.claims, ids, Withdrawn(s), scope, i + 1);
      if c in s.staleClaims || c in s.retired || c in s.supersededClaims {
        continue;
      }
      if c !in s.claims || Judge(s.claims[c], scope).Malformed? {
        return Err(InvalidValue);
      }
      if Judge(s.claims[c], scope).Hidden? {
        continue;
      }
      selected := selected + [ClaimView(c, s.claims[c])];
    }
    assert ids[..|ids|] == ids;
    return Ok(selected);
  }

  // ---------------------------------------------------------------- kernel artifacts

  datatype Content = Claims(views: seq<ClaimView>) | Readiness(visible: nat, degraded: seq<Id>)

  datatype LossReport = LossReport(stale: seq<Id>, contradictions: seq<Id>, degraded: seq<Id>)

  datatype Artifact = Artifact(twin: Id, field: Id, seqNo: nat, sources: seq<Id>, degraded: bool,
                               content: Content, loss: LossReport)

  function Ids(views: seq<ClaimView>): (ids: seq<Id>)
    ensures |ids| == |views|
  {
    seq(|views|, i requires 0 <= i < |views| => views[i].id)
  }

  predicate HasArtifact(kind: Id, field: Id) {
    kind in CLAIM_KIND_TO_ARTIFACT && CLAIM_KIND_TO_ARTIFACT[kind] == field
  }

  function OfKind(views: seq<ClaimView>, field: Id): seq<ClaimView> {
    if views == [] then [] else
      var n := |views| - 1;
      OfKind(views[..n], field) + if HasArtifact(views[n].claim.body.kind, field) then [views[n]] else []
  }

  function Selected(s: Facts, field: Id, accepted: seq<ClaimView>, scope: Scope): Result<seq<ClaimView>> {
    if field == KERNEL then Ok(accepted)
    else if field == COUNTERWEIGHTS then ContestedClaims(s, scope)
    else if field == READINESS then Ok([])
    else Ok(OfKind(accepted, field))
  }

  function ContentOf(s: Facts, field: Id, accepted: seq<ClaimView>, selected: seq<ClaimView>): Content {
    if field == READINESS then Readiness(|accepted|, s.degraded) else Claims(selected)
  }

  function CompileArtifact(s: Twin, field: Id, scope: Scope): Result<Artifact> {
    if field !in ARTIFACT_FIELDS then Err(InvariantViolation) else
      match AcceptedClaims(s.facts, scope)
      case Err(e) => Err(e)
      case Ok(accepted) =>
        match Selected(s.facts, field, accepted, scope)
        case Err(e) => Err(e)
        case Ok(selected) =>
          Ok(Artifact(s.twinId, field, s.seqNo, Ids(selected), s.facts.degraded != [],
                      ContentOf(s.facts, field, accepted, selected),
                      LossReport(Sorted(s.facts.staleClaims), Sorted(s.facts.contradictions.Keys), s.facts.degraded)))
  }

  // ---------------------------------------------------------------- disclosure

  datatype DisclosedClaim = DisclosedClaim(statement: Id, kind: Id, validity: Validity, epistemic: seq<real>)

  datatype DisclosedContent =
    | DisclosedClaims(claims: seq<DisclosedClaim>)
    | DisclosedReadiness(visible: nat, degraded: seq<Id>)

  datatype DisclosedArtifact = DisclosedArtifact(degraded: bool, seqNo: nat, content: DisclosedContent, degradedLoss: bool)

  function Disclose(c: Claim): DisclosedClaim {
    DisclosedClaim(c.statement, c.kind, c.validity, c.epistemic)
  }

  function DiscloseAll(views: seq<ClaimView>): seq<DisclosedClaim> {
    seq(|views|, i requires 0 <= i < |views| => Disclose(views[i].claim.body))
  }

  function DisclosedPayload(content: Content): DisclosedContent {
    match content
    case Claims(views) => DisclosedClaims(DiscloseAll(views))
    case Readiness(visible, degraded) => DisclosedReadiness(visible, degraded)
  }

  function DiscloseArtifact(a: Artifact): DisclosedArtifact {
    DisclosedArtifact(a.degraded, a.seqNo, DisclosedPayload(a.content), a.loss.degraded != [])
  }

  datatype ProjectionRequest = ProjectionRequest(requestId: Id, twin: Id, subject: Id, recipient: Id, purpose: Id,
                                                 maximum: Sensitivity, validAt: int, knownAt: int)

  datatype Consent = Consent(consentId: Id, policyVersion: Id, validUntil: int)

  datatype Decision = Decision(allowed: bool, reasons: seq<Id>, fields: set<Id>)

  datatype Document = Document(twin: Id, subject: Id, recipient: Id, purpose: Id, validAt: int, knownAt: int,
                               artifacts: map<Id, DisclosedArtifact>)

  datatype Receipt = Receipt(requestId: Id, consentId: Id, policyVersion: Id, issuedAt: int, expiresAt: int, seqNo: nat,
                             fields: seq<Id>, sources: seq<Id>, reasons: seq<Id>)

  const HOUR := 3600

  function ScopeOf(request: ProjectionRequest): Scope {
    Scope(Some(request.validAt), Some(request.knownAt), Some(request.maximum))
  }

  /** The artifacts of several fields, and the claims they draw on. */
  function CompileFields(s: Twin, fields: seq<Id>, scope: Scope): Result<(map<Id, DisclosedArtifact>, set<Id>)> {
    if fields == [] then Ok((map[], {})) else
      var n := |fields| - 1;
      match CompileFields(s, fields[..n], scope)
      case Err(e) => Err(e)
      case Ok((artifacts, sources)) =>
        match CompileArtifact(s, fields[n], scope)
        case Err(e) => Err(e)
        case Ok(a) => Ok((artifacts[fields[n] := DiscloseArtifact(a)], sources + Elements(a.sources)))
  }

  function DocumentOf(s: Twin, request: ProjectionRequest, artifacts: map<Id, DisclosedArtifact>): Document {
    Document(s.twinId, request.subject, request.recipient, request.purpose, request.validAt, request.knownAt, artifacts)
  }

  function ReceiptOf(s: Twin, request: ProjectionRequest, consent: Consent, decision: Decision, sources: set<Id>, now: int): Receipt {
    Receipt(request.requestId, consent.consentId, consent.policyVersion, now,
            if consent.validUntil < now + HOUR then consent.validUntil else now + HOUR,
            s.seqNo, Sorted(decision.fields), Sorted(sources), decision.reasons)
  }

  function CompileProjection(s: Twin, request: ProjectionRequest, consent: Option<Consent>, decision: Decision, now: int):
    Result<(Document, Receipt)>
  {
    if request.twin != s.twinId then Err(InvariantViolation)
    else if s.facts.subject != Some(request.subject) then Err(InvariantViolation)
    else if !decision.allowed || consent.None? then Err(PolicyDenied)
    else
      match CompileFields(s, Sorted(decision.fields), ScopeOf(request))
      case Err(e) => Err(e)
      case Ok((artifacts, sources)) =>
        Ok((DocumentOf(s, request, artifacts), ReceiptOf(s, request, consent.value, decision, sources, now)))
  }

  lemma {:induction false} FieldsFail(s: Twin, fields: seq<Id>, scope: Scope, n: nat)
    requires n <= |fields|
    ensures CompileFields(s, fields[..n], scope).Err? ==> CompileFields(s, fields, scope) == CompileFields(s, fields[..n], scope)
  {
    if n == |fields| {
      assert fields[..n] == fields;
    } else {
      assert fields[..|fields| - 1][..n] == fields[..n];
      FieldsFail(s, fields[..|fields| - 1], scope, n);
    }
  }

  /** The compile loop: one artifact a field, collecting the claims that they draw on. */
  method Compile(s: Twin, request: ProjectionRequest, consent: Option<Consent>, decision: Decision, now: int)
    returns (r: Result<(Document, Receipt)>)
    ensures r == CompileProjection(s, request, consent, decision, now)
  {
    hide CompileArtifact, DiscloseArtifact, Sorted;
    if request.twin != s.twinId {
      return Err(InvariantViolation);
    }
    if s.facts.subject.None? || request.subject != s.facts.subject.value {
      return Err(InvariantViolation);
    }
    if !decision.allowed || consent.None? {
      return Err(PolicyDenied);
    }
    var artifacts: map<Id, DisclosedArtifact> := map[];
    var sources: set<Id> := {};
    var fields := Sorted(decision.fields);
    for i := 0 to |fields|
      invariant CompileFields(s, fields[..i], ScopeOf(request)) == Ok((artifacts, sources))
    {
      assert fields[..i + 1][..i] == fields[..i];
      FieldsFail(s, fields, ScopeOf(request), i + 1);
      var artifact := CompileArtifact(s, fields[i], ScopeOf(request));
      if artifact.Err? {
        return Err(artifact.error);
      }
      artifacts := artifacts[fields[i] := DiscloseArtifact(artifact.value)];
      sources := sources + Elements(artifact.value.sources);
    }
    assert fields[..|fields|] == fields;
    return Ok((DocumentOf(s, request, artifacts), ReceiptOf(s, request, consent.value, decision, sources, now)));
  }

  // ---------------------------------------------------------------- what a request may learn

  /** What is shown of a set of claims; broken says that one of them cannot be judged. */
  datatype Sight = Sight(shown: map<Id, DisclosedClaim>, broken: bool)

  function See(claims: map<Id, Recorded<Claim>>, candidates: set<Id>, scope: Scope): Sight {
    Sight(map c | c in candidates && c in claims && Judge(claims[c], scope).Shown? :: Disclose(claims[c].body),
          exists c :: c in candidates && (c !in claims || Judge(claims[c], scope).Malformed?))
  }

  /** Everything about the claims of a twin that the given scope reveals. */
  datatype Lens = Lens(accepted: Sight, contested: Sight, degraded: seq<Id>)

  function LensOf(s: Facts, scope: Scope): Lens {
    Lens(See(s.claims, s.accepted - Withdrawn(s), scope),
         See(s.claims, s.contested * s.claims.Keys - s.staleClaims, scope),
         s.degraded)
  }

  function Listing(shown: map<Id, DisclosedClaim>, ids: seq<Id>): seq<DisclosedClaim>
    requires forall c :: c in ids ==> c in shown
  {
    seq(|ids|, i requires 0 <= i < |ids| => shown[ids[i]])
  }

  function WithArtifact(shown: map<Id, DisclosedClaim>, field: Id): map<Id, DisclosedClaim> {
    map c | c in shown && HasArtifact(shown[c].kind, field) :: shown[c]
  }

  function Chosen(lens: Lens, field: Id): map<Id, DisclosedClaim> {
    if field == KERNEL then lens.accepted.shown
    else if field == COUNTERWEIGHTS then lens.contested.shown
    else if field == READINESS then map[]
    else WithArtifact(lens.accepted.shown, field)
  }

  /** A disclosed artifact and its sources, from what the scope reveals alone. */
  function Revealed(lens: Lens, seqNo: nat, field: Id): Result<(DisclosedArtifact, set<Id>)> {
    if field !in ARTIFACT_FIELDS then Err(InvariantViolation)
    else if lens.accepted.broken || (field == COUNTERWEIGHTS && lens.contested.broken) then Err(InvalidValue)
    else
      var chosen := Chosen(lens, field);
      var content :=
        if field == READINESS then DisclosedReadiness(|Sorted(lens.accepted.shown.Keys)|, lens.degraded)
        else
          assert forall c :: c in Sorted(chosen.Keys) ==> c in Elements(Sorted(chosen.Keys));
          DisclosedClaims(Listing(chosen, Sorted(chosen.Keys)));
      Ok((DisclosedArtifact(lens.degraded != [], seqNo, content, lens.degraded != []), chosen.Keys))
  }

  /** The views are the shown claims, each once, in ascending order. */
  predicate Lists(views: seq<ClaimView>, shown: map<Id, DisclosedClaim>) {
    && Ascending(Ids(views)) && Elements(Ids(views)) == shown.Keys
    && forall i :: 0 <= i < |views| ==> views[i].id in shown && shown[views[i].id] == Disclose(views[i].claim.body)
  }

  /** A view with a greater identifier goes last. */
  lemma ListsOneMore(views: seq<ClaimView>, shown: map<Id, DisclosedClaim>, v: ClaimView)
    requires Lists(views, shown) && forall c :: c in shown ==> c < v.id
    ensures Lists(views + [v], shown[v.id := Disclose(v.claim.body)])
  {
    hide Disclose;
    var ids, more := Ids(views), Ids(views + [v]);
    assert more == ids + [v.id];
    assert Elements(more) == Elements(ids) + {v.id};
    forall i | 0 <= i < |ids|
      ensures ids[i] < v.id
    {
      assert ids[i] in Elements(ids);
    }
  }

  lemma AllButLast(ids: seq<Id>)
    requires Ascending(ids) && ids != []
    ensures var n := |ids| - 1;
            && Ascending(ids[..n]) && Elements(ids[..n]) == Elements(ids) - {ids[n]}
            && forall c :: c in Elements(ids[..n]) ==> c < ids[n]
  {
    assert ids == ids[..|ids| - 1] + [ids[|ids| - 1]];
  }

  lemma ListsAllButLast(views: seq<ClaimView>, shown: map<Id, DisclosedClaim>)
    requires Lists(views, shown) && views != []
    ensures var n := |views| - 1;
            && Lists(views[..n], shown - {views[n].id})
            && views[n].id in shown && shown[views[n].id] == Disclose(views[n].claim.body)
            && forall c :: c in shown - {views[n].id} ==> c < views[n].id
  {
    hide Disclose;
    var n, ids := |views| - 1, Ids(views);
    assert Ids(views[..n]) == ids[..n] && ids[n] == views[n].id;
    AllButLast(ids);
    forall i | 0 <= i < n
      ensures views[..n][i].id in shown - {views[n].id}
      ensures (shown - {views[n].id})[views[..n][i].id] == Disclose(views[..n][i].claim.body)
    {
      assert ids[i] == views[i].id && views[i].id < views[n].id;
    }
  }

  lemma SeeOneMore(claims: map<Id, Recorded<Claim>>, ids: seq<Id>, skip: set<Id>, scope: Scope)
    requires Ascending(ids) && ids != []
    ensures var n := |ids| - 1; var c := ids[n];
            var before, now := See(claims, Elements(ids[..n]) - skip, scope), See(claims, Elements(ids) - skip, scope);
            && (forall x :: x in before.shown ==> x < c)
            && (now.broken <==> before.broken || (c !in skip && (c !in claims || Judge(claims[c], scope).Malformed?)))
            && now.shown == if c !in skip && c in claims && Judge(claims[c], scope).Shown?
                            then before.shown[c := Disclose(claims[c].body)] else before.shown
  {
    hide Judge, Disclose;
    var n := |ids| - 1;
    assert ids == ids[..n] + [ids[n]];
    assert Elements(ids) == Elements(ids[..n]) + {ids[n]} && ids[n] !in Elements(ids[..n]);
  }

  /** Collecting over an ascending list finds what there is to see of it, or fails if that is broken. */
  lemma {:induction false} CollectSees(claims: map<Id, Recorded<Claim>>, ids: seq<Id>, skip: set<Id>, scope: Scope)
    requires Ascending(ids)
    ensures var r, sight := Collect(claims, ids, skip, scope), See(claims, Elements(ids) - skip, scope);
            && (r.Err? <==> sight.broken) && (r.Err? ==> r.error == InvalidValue)
            && (r.Ok? ==> Lists(r.value, sight.shown))
  {
    if ids == [] {
      assert Ids([]) == [];
    } else {
      hide Judge, Disclose, See, Lists;
      var n := |ids| - 1;
      CollectSees(claims, ids[..n], skip, scope);
      SeeOneMore(claims, ids, skip, scope);
      var before, c := Collect(claims, ids[..n], skip, scope), ids[n];
      if before.Ok? && c !in skip && c in claims && Judge(claims[c], scope).Shown? {
        ListsOneMore(before.value, See(claims, Elements(ids[..n]) - skip, scope).shown, ClaimView(c, claims[c]));
      }
    }
  }

  lemma ListsIsListing(views: seq<ClaimView>, shown: map<Id, DisclosedClaim>)
    requires Lists(views, shown)
    ensures Ids(views) == Sorted(shown.Keys)
    ensures forall c :: c in Sorted(shown.Keys) ==> c in shown
    ensures DiscloseAll(views) == Listing(shown, Sorted(shown.Keys))
  {
    AscendingIsUnique(Ids(views), Sorted(shown.Keys));
    assert forall c :: c in Sorted(shown.Keys) ==> c in Elements(Sorted(shown.Keys));
    forall i | 0 <= i < |views|
      ensures Sorted(shown.Keys)[i] == views[i].id
    {
      assert Ids(views)[i] == views[i].id;
    }
  }

  lemma WithArtifactOneMore(front: map<Id, DisclosedClaim>, shown: map<Id, DisclosedClaim>, v: ClaimView, field: Id)
    requires v.id in shown && front == shown - {v.id} && shown[v.id] == Disclose(v.claim.body)
    ensures WithArtifact(shown, field)
         == if HasArtifact(v.claim.body.kind, field) then WithArtifact(front, field)[v.id := Disclose(v.claim.body)]
            else WithArtifact(front, field)
    ensures WithArtifact(front, field).Keys <= front.Keys
  {
    hide HasArtifact;
  }

  lemma NothingListed(shown: map<Id, DisclosedClaim>, field: Id)
    requires Lists([], shown)
    ensures Lists([], WithArtifact(shown, field))
  {
    assert Ids([]) == [] && Elements<Id>([]) == {};
    assert shown.Keys == {} == WithArtifact(shown, field).Keys;
  }

  lemma {:induction false} OfKindLists(views: seq<ClaimView>, shown: map<Id, DisclosedClaim>, field: Id)
    requires Lists(views, shown)
    ensures Lists(OfKind(views, field), WithArtifact(shown, field))
  {
    hide HasArtifact, Lists, Disclose, WithArtifact, Ids, Elements;
    if views == [] {
      NothingListed(shown, field);
    } else {
      var n := |views| - 1;
      ListsAllButLast(views, shown);
      var front := shown - {views[n].id};
      OfKindLists(views[..n], front, field);
      WithArtifactOneMore(front, shown, views[n], field);
      if HasArtifact(views[n].claim.body.kind, field) {
        ListsOneMore(OfKind(views[..n], field), WithArtifact(front, field), views[n]);
      } else {
        assert OfKind(views, field) == OfKind(views[..n], field);
      }
    }
  }

  lemma AcceptedAreSeen(s: Facts, scope: Scope)
    ensures var r, sight := AcceptedClaims(s, scope), LensOf(s, scope).accepted;
            && (r.Err? <==> sight.broken) && (r.Err? ==> r.error == InvalidValue)
            && (r.Ok? ==> Lists(r.value, sight.shown))
    ensures LensOf(s, scope).degraded == s.degraded
  {
    CollectSees(s.claims, Sorted(s.accepted), Withdrawn(s), scope);
  }

  lemma ContestedAreSeen(s: Facts, scope: Scope)
    ensures var r, sight := ContestedClaims(s, scope), LensOf(s, scope).contested;
            && (r.Err? <==> sight.broken) && (r.Err? ==> r.error == InvalidValue)
            && (r.Ok? ==> Lists(r.value, sight.shown))
  {
    var skip := s.staleClaims + (s.contested - s.claims.Keys);
    CollectSees(s.claims, Sorted(s.contested), skip, scope);
    assert s.contested - skip == s.contested * s.claims.Keys - s.staleClaims;
  }

  /** What an artifact discloses follows from what its scope shows, and whether it fails, from what is broken. */
  lemma ArtifactIsRevealed(s: Twin, field: Id, scope: Scope)
    ensures var a, b := CompileArtifact(s, field, scope), Revealed(LensOf(s.facts, scope), s.seqNo, field);
            && (a.Ok? <==> b.Ok?) && (a.Err? ==> a.error == b.error)
            && (a.Ok? ==> (DiscloseArtifact(a.value), Elements(a.value.sources)) == b.value)
  {
    hide LensOf, AcceptedClaims, ContestedClaims, DiscloseAll, Listing, OfKind, WithArtifact, Lists, See, Sorted;
    var lens := LensOf(s.facts, scope);
    AcceptedAreSeen(s.facts, scope);
    ContestedAreSeen(s.facts, scope);
    var accepted := AcceptedClaims(s.facts, scope);
    if field in ARTIFACT_FIELDS && accepted.Ok? {
      ListsIsListing(accepted.value, lens.accepted.shown);
      var selected := Selected(s.facts, field, accepted.value, scope);
      if field == READINESS {
        assert Elements<Id>([]) == {} == Chosen(lens, field).Keys;
        assert |accepted.value| == |Ids(accepted.value)| == |Sorted(lens.accepted.shown.Keys)|;
        assert Ids(selected.value) == [];
      } else if selected.Ok? {
        if field != KERNEL && field != COUNTERWEIGHTS {
          OfKindLists(accepted.value, lens.accepted.shown, field);
        }
        ListsIsListing(selected.value, Chosen(lens, field));
      }
    }
  }

  function RevealedFields(lens: Lens, seqNo: nat, fields: seq<Id>): Result<(map<Id, DisclosedArtifact>, set<Id>)> {
    if fields == [] then Ok((map[], {})) else
      var n := |fields| - 1;
      match RevealedFields(lens, seqNo, fields[..n])
      case Err(e) => Err(e)
      case Ok((artifacts, sources)) =>
        match Revealed(lens, seqNo, fields[n])
        case Err(e) => Err(e)
        case Ok((a, more)) => Ok((artifacts[fields[n] := a], sources + more))
  }

  lemma {:induction false} FieldsAreRevealed(s: Twin, fields: seq<Id>, scope: Scope)
    ensures CompileFields(s, fields, scope) == RevealedFields(LensOf(s.facts, scope), s.seqNo, fields)
  {
    hide LensOf, CompileArtifact, Revealed, DiscloseArtifact;
    if fields != [] {
      FieldsAreRevealed(s, fields[..|fields| - 1], scope);
      ArtifactIsRevealed(s, fields[|fields| - 1], scope);
    }
  }

  /** The lens decides the answer: two states with the same position and the same lens compile to the same. */
  lemma LensDecidesAnswer(s: Twin, t: Twin, request: ProjectionRequest, consent: Option<Consent>, decision: Decision, now: int)
    requires s.twinId == t.twinId && s.seqNo == t.seqNo && s.facts.subject == t.facts.subject
    requires LensOf(s.facts, ScopeOf(request)) == LensOf(t.facts, ScopeOf(request))
    ensures CompileProjection(s, request, consent, decision, now) == CompileProjection(t, request, consent, decision, now)
  {
    hide LensOf, CompileFields, RevealedFields;
    FieldsAreRevealed(s, Sorted(decision.fields), ScopeOf(request));
    FieldsAreRevealed(t, Sorted(decision.fields), ScopeOf(request));
  }

  // ---------------------------------------------------------------- non-interference, and where it stops

  /** Within the requested sensitivity, valid at the requested time, and recorded by the other one. */
  predicate Visible(c: Recorded<Claim>, request: ProjectionRequest) {
    var validity := c.body.validity;
    && c.body.sensitivity.Some? && c.body.sensitivity.value.Rank() <= request.maximum.Rank()
    && validity.start.Some? && validity.start.value <= request.validAt
    && (validity.end.Some? ==> request.validAt < validity.end.value)
    && c.recordedAt <= request.knownAt
  }

  /** The compiler raises on a claim that names no sensitivity level, or passes the limit and has no valid start. */
  predicate Unreadable(c: Recorded<Claim>, request: ProjectionRequest) {
    || c.body.sensitivity.None?
    || (c.body.sensitivity.value.Rank() <= request.maximum.Rank() && c.body.validity.start.None?)
  }

  function VisibleAccepted(s: Facts, request: ProjectionRequest): map<Id, DisclosedClaim> {
    map c | c in s.accepted && c !in Withdrawn(s) && c in s.claims && Visible(s.claims[c], request)
      :: Disclose(s.claims[c].body)
  }

  function VisibleContested(s: Facts, request: ProjectionRequest): map<Id, DisclosedClaim> {
    map c | c in s.contested && c !in s.staleClaims && c in s.claims && Visible(s.claims[c], request)
      :: Disclose(s.claims[c].body)
  }

  /** Whether an accepted claim, visible or not, makes the compiler raise. */
  predicate RaisesOnAccepted(s: Facts, request: ProjectionRequest) {
    exists c :: c in s.accepted && c !in Withdrawn(s) && (c !in s.claims || Unreadable(s.claims[c], request))
  }

  predicate RaisesOnContested(s: Facts, request: ProjectionRequest) {
    exists c :: c in s.contested && c !in s.staleClaims && c in s.claims && Unreadable(s.claims[c], request)
  }

  predicate Raises(s: Facts, request: ProjectionRequest, fields: set<Id>) {
    RaisesOnAccepted(s, request) || (COUNTERWEIGHTS in fields && RaisesOnContested(s, request))
  }

  /** The scope of a request shows exactly the visible claims, and is broken exactly by the unreadable ones. */
  lemma ShownIffVisible(s: Facts, request: ProjectionRequest)
    ensures var lens := LensOf(s, ScopeOf(request));
            && lens.accepted.shown == VisibleAccepted(s, request) && lens.contested.shown == VisibleContested(s, request)
            && (lens.accepted.broken <==> RaisesOnAccepted(s, request))
            && (lens.contested.broken <==> RaisesOnContested(s, request))
            && lens.degraded == s.degraded
  {
    hide Withdrawn, Disclose;
    var scope := ScopeOf(request);
    forall c | c in s.claims
      ensures Judge(s.claims[c], scope).Shown? <==> Visible(s.claims[c], request)
      ensures Judge(s.claims[c], scope).Malformed? <==> Unreadable(s.claims[c], request)
    {}
    hide Judge, Visible, Unreadable;
    var lens := LensOf(s, scope);
    assert lens.accepted.shown == VisibleAccepted(s, request);
    assert lens.contested.shown == VisibleContested(s, request);
    if lens.accepted.broken {
      var c :| c in s.accepted - Withdrawn(s) && (c !in s.claims || Judge(s.claims[c], scope).Malformed?);
    }
    if RaisesOnAccepted(s, request) {
      var c :| c in s.accepted && c !in Withdrawn(s) && (c !in s.claims || Unreadable(s.claims[c], request));
      assert c in s.accepted - Withdrawn(s);
    }
    if RaisesOnContested(s, request) {
      var c :| c in s.contested && c !in s.staleClaims && c in s.claims && Unreadable(s.claims[c], request);
      assert c in s.contested * s.claims.Keys - s.staleClaims;
    }
  }

  lemma RevealedFails(lens: Lens, seqNo: nat, field: Id)
    requires field in ARTIFACT_FIELDS
    ensures Revealed(lens, seqNo, field).Err?
       <==> lens.accepted.broken || (field == COUNTERWEIGHTS && lens.contested.broken)
    ensures Revealed(lens, seqNo, field).Err? ==> Revealed(lens, seqNo, field).error == InvalidValue
  {
    hide Chosen, Listing, Sorted;
  }

  lemma LastFieldIsOneOf(fields: seq<Id>, f: Id)
    requires fields != []
    ensures f in fields <==> f in fields[..|fields| - 1] || fields[|fields| - 1] == f
  {
    assert fields == fields[..|fields| - 1] + [fields[|fields| - 1]];
  }

  lemma {:induction false} RevealedFieldsFail(lens: Lens, seqNo: nat, fields: seq<Id>)
    requires forall f :: f in fields ==> f in ARTIFACT_FIELDS
    ensures RevealedFields(lens, seqNo, fields).Err?
       <==> fields != [] && (lens.accepted.broken || (COUNTERWEIGHTS in fields && lens.contested.broken))
    ensures RevealedFields(lens, seqNo, fields).Err? ==> RevealedFields(lens, seqNo, fields).error == InvalidValue
  {
    hide Revealed;
    if fields != [] {
      var n := |fields| - 1;
      LastFieldIsOneOf(fields, COUNTERWEIGHTS);
      assert fields[n] in fields;
      assert forall f :: f in fields[..n] ==> f in fields;
      RevealedFieldsFail(lens, seqNo, fields[..n]);
      RevealedFails(lens, seqNo, fields[n]);
    }
  }

  lemma {:induction false} RevealedFieldsAgree(a: Lens, b: Lens, seqNo: nat, fields: seq<Id>)
    requires a.accepted.shown == b.accepted.shown && a.contested.shown == b.contested.shown && a.degraded == b.degraded
    requires RevealedFields(a, seqNo, fields).Ok? && RevealedFields(b, seqNo, fields).Ok?
    ensures RevealedFields(a, seqNo, fields) == RevealedFields(b, seqNo, fields)
  {
    hide Listing, Sorted, WithArtifact;
    if fields != [] {
      RevealedFieldsAgree(a, b, seqNo, fields[..|fields| - 1]);
    }
  }

  /** What a policy that allows a request grants: at least one field, and only fields that exist. */
  predicate GrantsFields(decision: Decision) {
    decision.allowed ==> decision.fields != {} && decision.fields <= ARTIFACT_FIELDS
  }

  predicate IsServed(s: Twin, request: ProjectionRequest, consent: Option<Consent>, decision: Decision) {
    request.twin == s.twinId && s.facts.subject == Some(request.subject) && decision.allowed && consent.Some?
  }

  /**
    Non-interference, exactly: of two states that agree on twin, subject, position, degradation and on
    the visible accepted and contested claims, the answers to a request differ in one case only: the
    request is served, and in one of the two states the compiler raises on a claim that it cannot
    read. Such a claim need not be visible; nothing else that is hidden can influence the answer.
   */
  lemma NonInterference(s: Twin, t: Twin, request: ProjectionRequest, consent: Option<Consent>, decision: Decision, now: int)
    requires s.twinId == t.twinId && s.seqNo == t.seqNo && s.facts.subject == t.facts.subject
    requires s.facts.degraded == t.facts.degraded
    requires VisibleAccepted(s.facts, request) == VisibleAccepted(t.facts, request)
    requires VisibleContested(s.facts, request) == VisibleContested(t.facts, request)
    requires GrantsFields(decision)
    ensures CompileProjection(s, request, consent, decision, now) == CompileProjection(t, request, consent, decision, now)
       <==> (IsServed(s, request, consent, decision) ==>
               (Raises(s.facts, request, decision.fields) <==> Raises(t.facts, request, decision.fields)))
  {
    hide LensOf, CompileFields, RevealedFields, VisibleAccepted, VisibleContested, RaisesOnAccepted, RaisesOnContested, Sorted;
    var scope, fields := ScopeOf(request), Sorted(decision.fields);
    var a, b := LensOf(s.facts, scope), LensOf(t.facts, scope);
    ShownIffVisible(s.facts, request);
    ShownIffVisible(t.facts, request);
    FieldsAreRevealed(s, fields, scope);
    FieldsAreRevealed(t, fields, scope);
    if IsServed(s, request, consent, decision) {
      forall f
        ensures f in fields <==> f in decision.fields
      {
        assert f in fields <==> f in Elements(fields);
      }
      var some :| some in decision.fields;
      assert some in fields;
      RevealedFieldsFail(a, s.seqNo, fields);
      RevealedFieldsFail(b, t.seqNo, fields);
      if RevealedFields(a, s.seqNo, fields).Ok? && RevealedFields(b, t.seqNo, fields).Ok? {
        RevealedFieldsAgree(a, b, s.seqNo, fields);
      }
    }
  }

  lemma RevealedDrawsOnChosen(lens: Lens, seqNo: nat, field: Id)
    requires Revealed(lens, seqNo, field).Ok?
    ensures Revealed(lens, seqNo, field).value.1 == Chosen(lens, field).Keys
  {
    hide Chosen, Sorted, Listing;
  }

  /** Every field's claims are among the sources. */
  lemma {:induction false} SourcesHoldChosen(lens: Lens, seqNo: nat, fields: seq<Id>, field: Id)
    requires RevealedFields(lens, seqNo, fields).Ok? && field in fields
    ensures Chosen(lens, field).Keys <= RevealedFields(lens, seqNo, fields).value.1
  {
    hide Chosen, Revealed;
    var n := |fields| - 1;
    if field == fields[n] {
      RevealedDrawsOnChosen(lens, seqNo, field);
    } else {
      SourcesHoldChosen(lens, seqNo, fields[..n], field);
    }
  }

  lemma {:induction false} SourcesAreSeen(lens: Lens, seqNo: nat, fields: seq<Id>)
    requires RevealedFields(lens, seqNo, fields).Ok?
    ensures RevealedFields(lens, seqNo, fields).value.1 <= lens.accepted.shown.Keys + lens.contested.shown.Keys
  {
    if fields != [] {
      SourcesAreSeen(lens, seqNo, fields[..|fields| - 1]);
    }
  }

  /**
    A projection draws only on visible claims that are accepted and not withdrawn, or contested and
    not stale; one that discloses the kernel draws on all of the former.
   */
  lemma ProjectionDrawsOnVisibleClaims(s: Twin, request: ProjectionRequest, consent: Option<Consent>, decision: Decision,
                                       now: int, c: Id)
    requires CompileProjection(s, request, consent, decision, now).Ok?
    ensures var usable := c in s.facts.claims && Visible(s.facts.claims[c], request);
            var sources := CompileProjection(s, request, consent, decision, now).value.1.sources;
            && (c in sources ==> usable && ((c in s.facts.accepted && c !in Withdrawn(s.facts))
                                            || (c in s.facts.contested && c !in s.facts.staleClaims)))
            && (KERNEL in decision.fields && usable && c in s.facts.accepted && c !in Withdrawn(s.facts) ==> c in sources)
  {
    hide CompileFields, RevealedFields, Sorted, LensOf, Withdrawn, Visible;
    var scope, fields := ScopeOf(request), Sorted(decision.fields);
    FieldsAreRevealed(s, fields, scope);
    SourcesAreSeen(LensOf(s.facts, scope), s.seqNo, fields);
    ShownIffVisible(s.facts, request);
    assert c in VisibleAccepted(s.facts, request)
      <==> c in s.facts.accepted && c !in Withdrawn(s.facts) && c in s.facts.claims && Visible(s.facts.claims[c], request);
    assert c in VisibleContested(s.facts, request)
      <==> c in s.facts.contested && c !in s.facts.staleClaims && c in s.facts.claims && Visible(s.facts.claims[c], request);
    var sources := CompileFields(s, fields, scope).value.1;
    assert c in Elements(Sorted(sources)) <==> c in sources;
    if KERNEL in decision.fields {
      assert KERNEL in Elements(fields);
      SourcesHoldChosen(LensOf(s.facts, scope), s.seqNo, fields, KERNEL);
    }
  }
}
