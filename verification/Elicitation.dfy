/**
  Gap-directed elicitation: which questions a recorded state gives rise to, and the check that a
  plan which comes back later is exactly the one that its source state yields.
 */
module Elicitation {
  import opened Types
  import opened Orders
  import opened Aggregate
  import opened Fold
  import opened EventStore
  import opened Replay

  datatype GapKind = MissingClaim | IndependenceDeficit | ContestedClaim | StaleLineage | UnresolvedContradiction

  /** The stable identifiers are name-based UUIDs: equal exactly when all the parts they name are. */
  datatype GapId = GapId(twin: Id, seqNo: nat, objective: Id, kind: GapKind, parts: seq<Id>)

  datatype QuestionId = QuestionId(gap: GapId)

  datatype PlanId = PlanId(twin: Id, seqNo: nat, objective: Id, minimum: nat, claims: seq<Id>)

  datatype Rationale = NoClaim | TooFewGroups(found: nat, required: nat) | StillContested | LineageGone | Unadjudicated

  datatype Prompt =
    | AskForObjective(objective: Id)
    | AskIndependently(statement: Id)
    | AskToDistinguish(statement: Id)
    | AskForReplacement(statement: Id)
    | AskToResolve

  datatype Gap = Gap(id: GapId, kind: GapKind, targets: seq<Id>, rationale: Rationale)

  datatype Question = Question(id: QuestionId, gap: GapId, prompt: Prompt)

  datatype Plan = Plan(id: PlanId, twin: Id, seqNo: nat, objective: Id, claims: seq<Id>,
                       gaps: seq<Gap>, questions: seq<Question>)

  /** A gap with the question that it raises. */
  datatype Finding = Finding(gap: Gap, question: Question)

  // ---------------------------------------------------------------- what a state gives rise to

  function GroupsOf(refs: seq<Ref>): set<Id> {
    set i | 0 <= i < |refs| && refs[i].group != NO_ID :: refs[i].group
  }

  function Found(s: Twin, objective: Id, kind: GapKind, targets: seq<Id>, identity: seq<Id>,
                 rationale: Rationale, prompt: Prompt): Finding
  {
    var id := GapId(s.twinId, s.seqNo, objective, kind, targets + identity);
    Finding(Gap(id, kind, targets, rationale), Question(QuestionId(id), id, prompt))
  }

  predicate Known(s: Twin, ids: seq<Id>) {
    forall c :: c in ids ==> c in s.facts.claims
  }

  function MissingFinding(s: Twin, objective: Id, selected: seq<Id>): seq<Finding> {
    if selected != [] then [] else
      [Found(s, objective, MissingClaim, [], [], NoClaim, AskForObjective(objective))]
  }

  /** What the state shows about a claim, for each of the three kinds of gap that claims have. */
  predicate Observed(minimum: nat, s: Twin, kind: GapKind, c: Id)
    requires c in s.facts.claims
  {
    match kind
    case IndependenceDeficit => |GroupsOf(s.facts.claims[c].body.provenance)| < minimum
    case ContestedClaim => c in s.facts.contested
    case StaleLineage => c in s.facts.staleClaims
    case _ => false
  }

  function ClaimFinding(minimum: nat, s: Twin, objective: Id, kind: GapKind, c: Id): Finding
    requires c in s.facts.claims
  {
    var statement := s.facts.claims[c].body.statement;
    match kind
    case IndependenceDeficit =>
      Found(s, objective, kind, [c], [], TooFewGroups(|GroupsOf(s.facts.claims[c].body.provenance)|, minimum),
            AskIndependently(statement))
    case ContestedClaim => Found(s, objective, kind, [c], [], StillContested, AskToDistinguish(statement))
    case _ => Found(s, objective, kind, [c], [], LineageGone, AskForReplacement(statement))
  }

  function FindingIf(minimum: nat, s: Twin, objective: Id, kind: GapKind, c: Id): seq<Finding>
    requires c in s.facts.claims
  {
    if Observed(minimum, s, kind, c) then [ClaimFinding(minimum, s, objective, kind, c)] else []
  }

  function ClaimFindings(minimum: nat, s: Twin, objective: Id, c: Id): seq<Finding>
    requires c in s.facts.claims
  {
    FindingIf(minimum, s, objective, IndependenceDeficit, c)
    + FindingIf(minimum, s, objective, ContestedClaim, c)
    + FindingIf(minimum, s, objective, StaleLineage, c)
  }

  function SelectedFindings(minimum: nat, s: Twin, objective: Id, ids: seq<Id>): seq<Finding>
    requires Known(s, ids)
  {
    if ids == [] then [] else
      var n := |ids| - 1;
      SelectedFindings(minimum, s, objective, ids[..n]) + ClaimFindings(minimum, s, objective, ids[n])
  }

  /** Open contradictions count; when claims were named, only those that touch one of them. */
  predicate Raised(s: Twin, named: bool, selected: seq<Id>, x: Id)
    requires x in s.facts.contradictions
  {
    && x !in s.facts.resolved
    && (named ==> exists c :: c in s.facts.contradictions[x].body.claims && c in selected)
  }

  function ContradictionFinding(s: Twin, objective: Id, x: Id): Finding
    requires x in s.facts.contradictions
  {
    Found(s, objective, UnresolvedContradiction, SortedList(s.facts.contradictions[x].body.claims), [x],
          Unadjudicated, AskToResolve)
  }

  function ContradictionFindings(s: Twin, objective: Id, named: bool, selected: seq<Id>, ids: seq<Id>): seq<Finding>
    requires forall x :: x in ids ==> x in s.facts.contradictions
  {
    if ids == [] then [] else
      var n := |ids| - 1;
      ContradictionFindings(s, objective, named, selected, ids[..n])
      + if Raised(s, named, selected, ids[n]) then [ContradictionFinding(s, objective, ids[n])] else []
  }

  function Findings(minimum: nat, s: Twin, objective: Id, named: bool, selected: seq<Id>): seq<Finding>
    requires Known(s, selected)
  {
    MissingFinding(s, objective, selected)
    + SelectedFindings(minimum, s, objective, selected)
    + ContradictionFindings(s, objective, named, selected, Sorted(s.facts.contradictions.Keys))
  }

  function Gaps(fs: seq<Finding>): seq<Gap> {
    seq(|fs|, i requires 0 <= i < |fs| => fs[i].gap)
  }

  function Questions(fs: seq<Finding>): seq<Question> {
    seq(|fs|, i requires 0 <= i < |fs| => fs[i].question)
  }

  function SelectedClaims(s: Twin, claimIds: Option<seq<Id>>): seq<Id> {
    Sorted(if claimIds.None? then s.facts.claims.Keys else Elements(claimIds.value))
  }

  /** The plan that a state yields; an objective without text is NO_ID. */
  function PlanOf(minimum: nat, s: Twin, objective: Id, claimIds: Option<seq<Id>>): Result<Plan> {
    var selected := SelectedClaims(s, claimIds);
    if objective == NO_ID || !Known(s, selected) then Err(InvariantViolation) else
      var found := Findings(minimum, s, objective, claimIds.Some?, selected);
      Ok(Plan(PlanId(s.twinId, s.seqNo, objective, minimum, selected), s.twinId, s.seqNo, objective, selected,
              Gaps(found), Questions(found)))
  }

  predicate Verified(minimum: nat, s: Twin, plan: Plan) {
    && s.twinId == plan.twin && s.seqNo == plan.seqNo
    && PlanOf(minimum, s, plan.objective, Some(plan.claims)) == Ok(plan)
  }

  // ---------------------------------------------------------------- the elicitor

  class GapDirectedElicitor {
    const minimum: nat

    constructor (minimum: nat)
      requires minimum >= 1
      ensures this.minimum == minimum
    {
      this.minimum := minimum;
    }

    /** The gaps of one claim, in the order of the three questions. */
    method AskAboutClaim(s: Twin, objective: Id, c: Id) returns (found: seq<Finding>)
      requires c in s.facts.claims
      ensures found == ClaimFindings(minimum, s, objective, c)
    {
      found := [];
      var statement := s.facts.claims[c].body.statement;
      var groups := GroupsOf(s.facts.claims[c].body.provenance);
      if |groups| < minimum {
        found := found + [Found(s, objective, IndependenceDeficit, [c], [], TooFewGroups(|groups|, minimum),
                                AskIndependently(statement))];
      }
      if c in s.facts.contested {
        found := found + [Found(s, objective, ContestedClaim, [c], [], StillContested, AskToDistinguish(statement))];
      }
      if c in s.facts.staleClaims {
        found := found + [Found(s, objective, StaleLineage, [c], [], LineageGone, AskForReplacement(statement))];
      }
    }

    method AskAboutClaims(s: Twin, objective: Id, selected: seq<Id>) returns (found: seq<Finding>)
      requires Known(s, selected)
      ensures found == SelectedFindings(minimum, s, objective, selected)
    {
      hide ClaimFindings;
      found := [];
      for i := 0 to |selected|
        invariant found == SelectedFindings(minimum, s, objective, selected[..i])
      {
        var more := AskAboutClaim(s, objective, selected[i]);
        found := found + more;
        assert selected[..i + 1][..i] == selected[..i];
      }
      assert selected[..|selected|] == selected;
    }

    method AskAboutContradictions(s: Twin, objective: Id, named: bool, selected: seq<Id>) returns (found: seq<Finding>)
      ensures found == ContradictionFindings(s, objective, named, selected, Sorted(s.facts.contradictions.Keys))
    {
      var order := Sorted(s.facts.contradictions.Keys);
      hide ContradictionFinding, Sorted;
      found := [];
      for i := 0 to |order|
        invariant found == ContradictionFindings(s, objective, named, selected, order[..i])
      {
        var x := order[i];
        assert x in Elements(order);
        assert order[..i + 1][..i] == order[..i];
        if x in s.facts.resolved {
          continue;
        }
        if named && !exists c :: c in s.facts.contradictions[x].body.claims && c in selected {
          continue;
        }
        found := found + [ContradictionFinding(s, objective, x)];
      }
      assert order[..|order|] == order;
    }

    /** Each gap comes with its question; the two lists are the two columns of the findings. */
    method MakePlan(s: Twin, objective: Id, claimIds: Option<seq<Id>>) returns (r: Result<Plan>)
      ensures r == PlanOf(minimum, s, objective, claimIds)
    {
      if objective == NO_ID {
        return Err(InvariantViolation);
      }
      var selected := SelectedClaims(s, claimIds);
      if !Known(s, selected) {
        return Err(InvariantViolation);
      }
      var found := [];
      if selected == [] {
        found := [Found(s, objective, MissingClaim, [], [], NoClaim, AskForObjective(objective))];
      }
      var claimed := AskAboutClaims(s, objective, selected);
      var disputed := AskAboutContradictions(s, objective, claimIds.Some?, selected);
      found := found + claimed + disputed;
      return Ok(Plan(PlanId(s.twinId, s.seqNo, objective, minimum, selected), s.twinId, s.seqNo, objective, selected,
                     Gaps(found), Questions(found)));
    }

    /** Fail closed unless the plan is exactly derivable from the state. */
    method VerifyPlan(s: Twin, plan: Plan) returns (r: Result<()>)
      ensures r == if Verified(minimum, s, plan) then Ok(()) else Err(InvariantViolation)
    {
      if s.twinId != plan.twin || s.seqNo != plan.seqNo {
        return Err(InvariantViolation);
      }
      var expected := MakePlan(s, plan.objective, Some(plan.claims));
      if expected.Err? {
        return Err(expected.error);
      }
      return if expected.value == plan then Ok(()) else Err(InvariantViolation);
    }
  }

  // ---------------------------------------------------------------- a plan verifies, then and later

  /** Naming all claims raises the same contradictions as naming none: each cites a known claim. */
  lemma {:induction false} NamingAllChangesNothing(s: Twin, objective: Id, selected: seq<Id>, ids: seq<Id>)
    requires ContradictionsKnown(s.facts.claims.Keys, s.facts.contradictions) && Elements(selected) == s.facts.claims.Keys
    requires forall x :: x in ids ==> x in s.facts.contradictions
    ensures ContradictionFindings(s, objective, true, selected, ids)
         == ContradictionFindings(s, objective, false, selected, ids)
  {
    if ids != [] {
      var n := |ids| - 1;
      NamingAllChangesNothing(s, objective, selected, ids[..n]);
      var claims := s.facts.contradictions[ids[n]].body.claims;
      assert claims[0] in claims && claims[0] in Elements(selected);
    }
  }

  /** Planning again for the claims that a plan lists gives the same plan. */
  lemma PlanningIsIdempotent(minimum: nat, s: Twin, objective: Id, claimIds: Option<seq<Id>>)
    requires ContradictionsKnown(s.facts.claims.Keys, s.facts.contradictions)
    requires PlanOf(minimum, s, objective, claimIds).Ok?
    ensures PlanOf(minimum, s, objective, Some(PlanOf(minimum, s, objective, claimIds).value.claims))
         == PlanOf(minimum, s, objective, claimIds)
  {
    var selected := SelectedClaims(s, claimIds);
    SortedOfAscending(selected);
    if claimIds.None? {
      NamingAllChangesNothing(s, objective, selected, Sorted(s.facts.contradictions.Keys));
    }
  }

  /** Verification accepts a plan exactly if the state yields it, for all claims or for any named ones. */
  lemma VerifiedIffDerivable(minimum: nat, s: Twin, plan: Plan)
    requires ContradictionsKnown(s.facts.claims.Keys, s.facts.contradictions)
    ensures Verified(minimum, s, plan) <==> exists claimIds :: PlanOf(minimum, s, plan.objective, claimIds) == Ok(plan)
  {
    hide Findings;
    if claimIds :| PlanOf(minimum, s, plan.objective, claimIds) == Ok(plan) {
      PlanningIsIdempotent(minimum, s, plan.objective, claimIds);
    }
  }

  lemma CoherentKnows(s: Facts)
    requires Coherent(s)
    ensures ContradictionsKnown(s.claims.Keys, s.contradictions)
  {}

  /**
    A plan made from a twin's latest state verifies at every later time, whatever was appended and
    whichever snapshots were taken or pruned since: the state at its source sequence is rebuilt exactly.
   */
  lemma PlanVerifiesLater(minimum: nat, db: Db, later: Db, twin: Id, useSnapshots: bool, objective: Id,
                          claimIds: Option<seq<Id>>)
    requires StoreSound(later) && SnapshotsSound(later) && Ledger(db, twin) <= Ledger(later, twin)
    requires FoldAll(twin, Ledger(db, twin)).Ok?
    requires PlanOf(minimum, FoldAll(twin, Ledger(db, twin)).value, objective, claimIds).Ok?
    ensures var plan := PlanOf(minimum, FoldAll(twin, Ledger(db, twin)).value, objective, claimIds).value;
            var rebuilt := Rebuild(later, twin, useSnapshots, Some(plan.seqNo), None);
            rebuilt.Ok? && Verified(minimum, rebuilt.value, plan)
  {
    hide StoreSound, SnapshotsSound, Rebuild, Findings, Coherent, ReplayStep;
    var events := Ledger(db, twin);
    var s := FoldAll(twin, events).value;
    FoldPosition(EmptyTwin(twin), events);
    ReachableIsCoherent(twin, events);
    assert ContradictionsKnown(s.facts.claims.Keys, s.facts.contradictions) by {
      CoherentKnows(s.facts);
    }
    SnapshotReplayIsFullReplay(later, twin, useSnapshots, Some(s.seqNo));
    assert Ledger(later, twin)[..|events|] == events;
    PlanningIsIdempotent(minimum, s, objective, claimIds);
  }

  // ---------------------------------------------------------------- what a plan asks about

  /** A finding about one of the named claims, or about one of the named contradictions. */
  predicate AboutClaim(f: Finding, ids: seq<Id>) {
    && (f.gap.kind.IndependenceDeficit? || f.gap.kind.ContestedClaim? || f.gap.kind.StaleLineage?)
    && |f.gap.id.parts| == 1 && f.gap.id.parts[0] in ids && f.gap.id.kind == f.gap.kind
  }

  predicate AboutContradiction(f: Finding, ids: seq<Id>) {
    && f.gap.kind.UnresolvedContradiction? && f.gap.id.kind == f.gap.kind
    && f.gap.id.parts != [] && f.gap.id.parts[|f.gap.id.parts| - 1] in ids
  }

  predicate DistinctGaps(fs: seq<Finding>) {
    forall i, j :: 0 <= i < j < |fs| ==> fs[i].gap.id != fs[j].gap.id
  }

  lemma DistinctTogether(a: seq<Finding>, b: seq<Finding>)
    requires DistinctGaps(a) && DistinctGaps(b)
    requires forall f, g :: f in a && g in b ==> f.gap.id != g.gap.id
    ensures DistinctGaps(a + b)
  {
    forall i, j | 0 <= i < j < |a + b|
      ensures (a + b)[i].gap.id != (a + b)[j].gap.id
    {
      if i < |a| <= j {
        assert a[i] in a && b[j - |a|] in b;
      }
    }
  }

  lemma ClaimFindingsDistinct(minimum: nat, s: Twin, objective: Id, c: Id)
    requires c in s.facts.claims
    ensures DistinctGaps(ClaimFindings(minimum, s, objective, c))
    ensures forall f :: f in ClaimFindings(minimum, s, objective, c) ==> AboutClaim(f, [c])
  {}

  lemma {:induction false} SelectedFindingsDistinct(minimum: nat, s: Twin, objective: Id, ids: seq<Id>)
    requires Known(s, ids) && Ascending(ids)
    ensures DistinctGaps(SelectedFindings(minimum, s, objective, ids))
    ensures forall f :: f in SelectedFindings(minimum, s, objective, ids) ==> AboutClaim(f, ids)
  {
    hide ClaimFindings;
    if ids != [] {
      var n := |ids| - 1;
      SelectedFindingsDistinct(minimum, s, objective, ids[..n]);
      ClaimFindingsDistinct(minimum, s, objective, ids[n]);
      assert ids[n] !in ids[..n];
      DistinctTogether(SelectedFindings(minimum, s, objective, ids[..n]), ClaimFindings(minimum, s, objective, ids[n]));
    }
  }

  lemma {:induction false} ContradictionFindingsDistinct(s: Twin, objective: Id, named: bool, selected: seq<Id>, ids: seq<Id>)
    requires (forall x :: x in ids ==> x in s.facts.contradictions) && Ascending(ids)
    ensures var fs := ContradictionFindings(s, objective, named, selected, ids);
            DistinctGaps(fs) && forall f :: f in fs ==> AboutContradiction(f, ids)
  {
    hide SortedList, Raised;
    if ids != [] {
      var n := |ids| - 1;
      ContradictionFindingsDistinct(s, objective, named, selected, ids[..n]);
      assert ids[n] !in ids[..n];
      var one := ContradictionFinding(s, objective, ids[n]);
      DistinctTogether(ContradictionFindings(s, objective, named, selected, ids[..n]), [one]);
    }
  }

  lemma {:induction false} ContradictionsReported(s: Twin, objective: Id, named: bool, selected: seq<Id>, ids: seq<Id>, x: Id)
    requires (forall y :: y in ids ==> y in s.facts.contradictions) && x in s.facts.contradictions
    ensures ContradictionFinding(s, objective, x) in ContradictionFindings(s, objective, named, selected, ids)
       <==> x in ids && Raised(s, named, selected, x)
  {
    hide SortedList, Raised;
    if ids != [] {
      var n := |ids| - 1;
      ContradictionsReported(s, objective, named, selected, ids[..n], x);
      var a, b := ContradictionFinding(s, objective, x), ContradictionFinding(s, objective, ids[n]);
      assert a.gap.id.parts[|a.gap.id.parts| - 1] == x && b.gap.id.parts[|b.gap.id.parts| - 1] == ids[n];
    }
  }

  /** Within a plan, no two gaps share an identifier. */
  lemma GapsAreDistinct(minimum: nat, s: Twin, objective: Id, claimIds: Option<seq<Id>>)
    requires PlanOf(minimum, s, objective, claimIds).Ok?
    ensures var gaps := PlanOf(minimum, s, objective, claimIds).value.gaps;
            forall i, j :: 0 <= i < j < |gaps| ==> gaps[i].id != gaps[j].id
  {
    hide SelectedFindings, ContradictionFindings, Sorted;
    var selected := SelectedClaims(s, claimIds);
    var order := Sorted(s.facts.contradictions.Keys);
    var a, b := MissingFinding(s, objective, selected), SelectedFindings(minimum, s, objective, selected);
    var c := ContradictionFindings(s, objective, claimIds.Some?, selected, order);
    assert forall x :: x in order ==> x in Elements(order);
    SelectedFindingsDistinct(minimum, s, objective, selected);
    ContradictionFindingsDistinct(s, objective, claimIds.Some?, selected, order);
    assert forall i :: 0 <= i < |b| ==> b[i] in b;
    assert forall i :: 0 <= i < |c| ==> c[i] in c;
  }

  predicate Asks(plan: Plan, f: Finding) {
    exists i :: 0 <= i < |plan.gaps| == |plan.questions| && plan.gaps[i] == f.gap && plan.questions[i] == f.question
  }

  lemma AsksWhatIsFound(plan: Plan, fs: seq<Finding>, f: Finding)
    requires plan.gaps == Gaps(fs) && plan.questions == Questions(fs)
    ensures Asks(plan, f) <==> f in fs
  {
    if f in fs {
      var i :| 0 <= i < |fs| && fs[i] == f;
      assert plan.gaps[i] == f.gap;
    }
    if Asks(plan, f) {
      var i :| 0 <= i < |plan.gaps| && plan.gaps[i] == f.gap && plan.questions[i] == f.question;
      assert fs[i] == f;
    }
  }

  predicate IsClaimKind(kind: GapKind) {
    kind.IndependenceDeficit? || kind.ContestedClaim? || kind.StaleLineage?
  }

  lemma {:induction false} ClaimsReported(minimum: nat, s: Twin, objective: Id, ids: seq<Id>, kind: GapKind, c: Id)
    requires Known(s, ids) && c in s.facts.claims && IsClaimKind(kind)
    ensures ClaimFinding(minimum, s, objective, kind, c) in SelectedFindings(minimum, s, objective, ids)
       <==> c in ids && Observed(minimum, s, kind, c)
  {
    hide GroupsOf, Observed;
    if ids != [] {
      var n := |ids| - 1;
      ClaimsReported(minimum, s, objective, ids[..n], kind, c);
      assert ClaimFinding(minimum, s, objective, kind, c).gap.targets[0] == c;
    }
  }

  lemma FoundInSections(minimum: nat, s: Twin, objective: Id, named: bool, selected: seq<Id>, f: Finding)
    requires Known(s, selected)
    ensures forall x :: x in Sorted(s.facts.contradictions.Keys) <==> x in s.facts.contradictions
    ensures f in Findings(minimum, s, objective, named, selected) <==>
      || f in MissingFinding(s, objective, selected)
      || f in SelectedFindings(minimum, s, objective, selected)
      || f in ContradictionFindings(s, objective, named, selected, Sorted(s.facts.contradictions.Keys))
  {
    hide MissingFinding, SelectedFindings, ContradictionFindings, Sorted;
    var order := Sorted(s.facts.contradictions.Keys);
    assert forall x :: x in order <==> x in Elements(order);
  }

  lemma PlanAsksAboutClaim(minimum: nat, s: Twin, objective: Id, claimIds: Option<seq<Id>>, kind: GapKind, c: Id)
    requires PlanOf(minimum, s, objective, claimIds).Ok? && IsClaimKind(kind) && c in s.facts.claims
    ensures var plan := PlanOf(minimum, s, objective, claimIds).value;
            Asks(plan, ClaimFinding(minimum, s, objective, kind, c)) <==> c in plan.claims && Observed(minimum, s, kind, c)
  {
    hide SelectedFindings, ContradictionFindings, Sorted, Asks, Observed, Findings;
    var plan, f := PlanOf(minimum, s, objective, claimIds).value, ClaimFinding(minimum, s, objective, kind, c);
    AsksWhatIsFound(plan, Findings(minimum, s, objective, claimIds.Some?, plan.claims), f);
    FoundInSections(minimum, s, objective, claimIds.Some?, plan.claims, f);
    ClaimsReported(minimum, s, objective, plan.claims, kind, c);
    ContradictionFindingsDistinct(s, objective, claimIds.Some?, plan.claims, Sorted(s.facts.contradictions.Keys));
  }

  lemma PlanAsksAboutContradiction(minimum: nat, s: Twin, objective: Id, claimIds: Option<seq<Id>>, x: Id)
    requires PlanOf(minimum, s, objective, claimIds).Ok? && x in s.facts.contradictions
    ensures var plan := PlanOf(minimum, s, objective, claimIds).value;
            Asks(plan, ContradictionFinding(s, objective, x)) <==> Raised(s, claimIds.Some?, plan.claims, x)
  {
    hide SelectedFindings, ContradictionFindings, Sorted, Asks, Raised, Findings;
    var plan, f := PlanOf(minimum, s, objective, claimIds).value, ContradictionFinding(s, objective, x);
    AsksWhatIsFound(plan, Findings(minimum, s, objective, claimIds.Some?, plan.claims), f);
    FoundInSections(minimum, s, objective, claimIds.Some?, plan.claims, f);
    SelectedFindingsDistinct(minimum, s, objective, plan.claims);
    ContradictionsReported(s, objective, claimIds.Some?, plan.claims, Sorted(s.facts.contradictions.Keys), x);
  }

  lemma PlanAsksForAFirstClaim(minimum: nat, s: Twin, objective: Id, claimIds: Option<seq<Id>>)
    requires PlanOf(minimum, s, objective, claimIds).Ok?
    ensures var plan := PlanOf(minimum, s, objective, claimIds).value;
            Asks(plan, Found(s, objective, MissingClaim, [], [], NoClaim, AskForObjective(objective)))
            <==> plan.claims == []
  {
    hide SelectedFindings, ContradictionFindings, Sorted, Asks, Findings;
    var plan := PlanOf(minimum, s, objective, claimIds).value;
    var f := Found(s, objective, MissingClaim, [], [], NoClaim, AskForObjective(objective));
    AsksWhatIsFound(plan, Findings(minimum, s, objective, claimIds.Some?, plan.claims), f);
    FoundInSections(minimum, s, objective, claimIds.Some?, plan.claims, f);
    SelectedFindingsDistinct(minimum, s, objective, plan.claims);
    ContradictionFindingsDistinct(s, objective, claimIds.Some?, plan.claims, Sorted(s.facts.contradictions.Keys));
  }

  /**
    A plan asks exactly about the observable gaps: about a listed claim for each kind of gap that the
    state shows of it, about each open contradiction that counts, and for a first claim if it lists none.
   */
  lemma PlanAsksExactlyAboutGaps(minimum: nat, s: Twin, objective: Id, claimIds: Option<seq<Id>>)
    requires PlanOf(minimum, s, objective, claimIds).Ok?
    ensures var plan := PlanOf(minimum, s, objective, claimIds).value;
            && (forall kind, c :: IsClaimKind(kind) && c in s.facts.claims ==>
                  (Asks(plan, ClaimFinding(minimum, s, objective, kind, c))
                   <==> c in plan.claims && Observed(minimum, s, kind, c)))
            && (forall x :: x in s.facts.contradictions ==>
                  (Asks(plan, ContradictionFinding(s, objective, x)) <==> Raised(s, claimIds.Some?, plan.claims, x)))
            && (Asks(plan, Found(s, objective, MissingClaim, [], [], NoClaim, AskForObjective(objective)))
                <==> plan.claims == [])
  {
    hide PlanOf, Asks, Observed, Raised, ClaimFinding, ContradictionFinding, Found;
    forall kind, c | IsClaimKind(kind) && c in s.facts.claims {
      PlanAsksAboutClaim(minimum, s, objective, claimIds, kind, c);
    }
    forall x | x in s.facts.contradictions {
      PlanAsksAboutContradiction(minimum, s, objective, claimIds, x);
    }
    PlanAsksForAFirstClaim(minimum, s, objective, claimIds);
  }
}
