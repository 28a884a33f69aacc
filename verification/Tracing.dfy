/**
  Lineage traces: where a node comes from, what depends on it, and how the evidence behind it falls
  into independence groups. A trace reads the index up to the position of the state it is asked about.
 */
module Tracing {
  import opened Types
  import opened Orders
  import opened Chain
  import opened Aggregate
  import opened Fold
  import opened Lineage
  import opened LineageHistory

  datatype LineageTrace = LineageTrace(twin: Id, root: Node, ancestors: seq<Node>, dependents: seq<Node>,
                                       groups: seq<(Id, seq<Id>)>)

  function EvidenceIds(ancestors: set<Node>, root: Node): set<Id> {
    (set n | n in ancestors && n.kind.EvidenceKind? :: n.id) + if root.kind.EvidenceKind? then {root.id} else {}
  }

  /** The present evidence of one independence group. */
  function Members(evidence: map<Id, Evidence>, ids: set<Id>, group: Id): set<Id> {
    set e | e in ids && e in evidence && evidence[e].group == group
  }

  function GroupNames(evidence: map<Id, Evidence>, ids: set<Id>): set<Id> {
    set e | e in ids && e in evidence && evidence[e].group != NO_ID :: evidence[e].group
  }

  /** The evidence that is still present, by group, each group in ascending order. */
  function Grouped(evidence: map<Id, Evidence>, ids: set<Id>): map<Id, seq<Id>> {
    map g | g in GroupNames(evidence, ids) :: Sorted(Members(evidence, ids, g))
  }

  /** The groups in ascending order of their names. */
  function GroupRows(groups: map<Id, seq<Id>>): seq<(Id, seq<Id>)> {
    var names := Sorted(groups.Keys);
    assert forall i :: 0 <= i < |names| ==> names[i] in Elements(names);
    seq(|names|, i requires 0 <= i < |names| => (names[i], groups[names[i]]))
  }

  predicate AllNamed(nodes: seq<Node>) {
    forall n :: n in nodes ==> n.id != NO_ID
  }

  /** A node without an identifier is refused, as the root and in the answers. */
  ghost function TraceOf(ix: Index, s: Twin, root: Node): Result<LineageTrace> {
    var ancestors, dependents := AncestorsOf(ix, root, s.seqNo), DependentsOf(ix, root, s.seqNo);
    if root.id == NO_ID || !AllNamed(InOrder(ancestors)) || !AllNamed(InOrder(dependents)) then Err(InvariantViolation)
    else Ok(LineageTrace(s.twinId, root, InOrder(ancestors), InOrder(dependents),
                         GroupRows(Grouped(s.facts.evidence, EvidenceIds(ancestors, root)))))
  }

  lemma SortedOneMore(ids: set<nat>, e: nat)
    requires forall x :: x in ids ==> x < e
    ensures Sorted(ids + {e}) == Sorted(ids) + [e]
  {
    var r := Sorted(ids) + [e];
    forall i | 0 <= i < |Sorted(ids)|
      ensures Sorted(ids)[i] < e
    {
      assert Sorted(ids)[i] in Elements(Sorted(ids));
    }
    assert Elements(r) == Elements(Sorted(ids)) + {e};
    AscendingIsUnique(Sorted(ids + {e}), r);
  }

  lemma MembersOneMore(evidence: map<Id, Evidence>, ids: set<Id>, e: Id, h: Id)
    ensures Members(evidence, ids + {e}, h)
         == if e in evidence && evidence[e].group == h then Members(evidence, ids, h) + {e} else Members(evidence, ids, h)
    ensures Members(evidence, ids, h) <= ids
  {}

  lemma NamesOneMore(evidence: map<Id, Evidence>, ids: set<Id>, e: Id)
    ensures GroupNames(evidence, ids + {e})
         == if e in evidence && evidence[e].group != NO_ID then GroupNames(evidence, ids) + {evidence[e].group}
            else GroupNames(evidence, ids)
    ensures forall g :: g !in GroupNames(evidence, ids) && g != NO_ID ==> Members(evidence, ids, g) == {}
    ensures NO_ID !in GroupNames(evidence, ids + {e})
  {
    assert e in ids + {e};
  }

  lemma NothingSorted()
    ensures Sorted({}) == []
  {
    AscendingIsUnique(Sorted({}), []);
  }

  lemma GroupedOneMore(evidence: map<Id, Evidence>, ids: set<Id>, e: Id)
    requires forall x :: x in ids ==> x < e
    ensures var before := Grouped(evidence, ids);
            Grouped(evidence, ids + {e}) ==
            if e !in evidence || evidence[e].group == NO_ID then before
            else before[evidence[e].group := (if evidence[e].group in before then before[evidence[e].group] else []) + [e]]
  {
    hide Sorted, Members, GroupNames;
    NamesOneMore(evidence, ids, e);
    NothingSorted();
    var before, after := Grouped(evidence, ids), Grouped(evidence, ids + {e});
    forall h | h in after && !(e in evidence && evidence[e].group == h)
      ensures h in before && after[h] == before[h]
    {
      MembersOneMore(evidence, ids, e, h);
    }
    if e in evidence && evidence[e].group != NO_ID {
      var g := evidence[e].group;
      MembersOneMore(evidence, ids, e, g);
      SortedOneMore(Members(evidence, ids, g), e);
      assert after[g] == Sorted(Members(evidence, ids, g)) + [e];
      var row := (if g in before then before[g] else []) + [e];
      assert after[g] == row;
      assert after == before[g := row];
    } else {
      assert after.Keys == before.Keys;
      assert after == before;
    }
  }

  lemma NothingGrouped(evidence: map<Id, Evidence>, order: seq<Id>)
    ensures Grouped(evidence, Elements(order[..0])) == map[]
  {
    assert Elements(order[..0]) == {};
  }

  lemma NextInOrder(order: seq<Id>, i: nat)
    requires Ascending(order) && i < |order|
    ensures Elements(order[..i + 1]) == Elements(order[..i]) + {order[i]}
    ensures forall x :: x in Elements(order[..i]) ==> x < order[i]
  {
    assert order[..i + 1] == order[..i] + [order[i]];
  }

  /** Put the present evidence into its groups, one identifier at a time. */
  method Group(evidence: map<Id, Evidence>, ids: set<Id>) returns (grouped: map<Id, seq<Id>>)
    ensures grouped == Grouped(evidence, ids)
  {
    hide Sorted, Grouped, Ascending;
    var order := Sorted(ids);
    grouped := map[];
    NothingGrouped(evidence, order);
    for i := 0 to |order|
      invariant grouped == Grouped(evidence, Elements(order[..i]))
    {
      var e := order[i];
      NextInOrder(order, i);
      GroupedOneMore(evidence, Elements(order[..i]), e);
      if e !in evidence {
        continue;
      }
      var g := evidence[e].group;
      if g != NO_ID {
        grouped := grouped[g := (if g in grouped then grouped[g] else []) + [e]];
      }
    }
    assert order[..|order|] == order;
  }

  /** Query both ways up to the state's position, and group the evidence among the ancestors. */
  method Trace(ix: Index, s: Twin, root: Node) returns (r: Result<LineageTrace>)
    ensures r == TraceOf(ix, s, root)
  {
    hide Grouped, GroupRows, InOrder;
    if root.id == NO_ID {
      return Err(InvariantViolation);
    }
    var ancestors := Ancestors(ix, Some(root.kind), root.id, true, Some(s.seqNo));
    var dependents := Dependents(ix, Some(root.kind), root.id, true, Some(s.seqNo));
    if !AllNamed(ancestors.value) || !AllNamed(dependents.value) {
      return Err(InvariantViolation);
    }
    InOrderLists(AncestorsOf(ix, root, s.seqNo));
    var ids := EvidenceIds(Elements(ancestors.value), root);
    assert Elements(ancestors.value) == AncestorsOf(ix, root, s.seqNo);
    var grouped := Group(s.facts.evidence, ids);
    return Ok(LineageTrace(s.twinId, root, ancestors.value, dependents.value, GroupRows(grouped)));
  }

  /** A trace of a recorded state gives, at every later head, what it gave when that state was the head. */
  lemma TraceIsReproducible(twin: Id, events: seq<Event>, n: nat, root: Node)
    requires Numbered(events) && n <= |events| && FoldAll(twin, events[..n]).Ok?
    ensures var s := FoldAll(twin, events[..n]).value;
            TraceOf(IndexAll(events), s, root) == TraceOf(IndexAll(events[..n]), s, root)
  {
    hide AncestorsOf, DependentsOf, Grouped, ReplayStep;
    FoldPosition(EmptyTwin(twin), events[..n]);
    QueryOfThePastIsStable(events, n, root);
  }

  lemma CitedIsAncestor(twin: Id, events: seq<Event>, c: Id, evidence: Id)
    requires FoldAll(twin, events).Ok?
    requires var s := FoldAll(twin, events).value.facts; c in s.claims && Cites(s.claims[c].body.provenance, evidence)
    ensures Node(EvidenceKind, evidence) in AncestorsOf(IndexAll(events), Node(ClaimKind, c), |events|)
  {
    hide ReplayStep, Reaches;
    assert events[..|events|] == events;
    var s, edges := FoldAll(twin, events).value.facts, IndexAll(events).edges.Keys;
    ReplayChecksChain(twin, events);
    ChainIsNumbered(events);
    FoldIsCovered(twin, events, |events|);
    CutoffIsHistory(events, |events|);
    CitedReaches(edges, s.claims[c].body.provenance, evidence, Node(ClaimKind, c));
    ClosureIsReachability(edges, Node(EvidenceKind, evidence), Node(ClaimKind, c));
    DirectionsAreConverse(IndexAll(events), Node(EvidenceKind, evidence), Node(ClaimKind, c), |events|);
  }

  /** The index holds no node without an identifier, so a trace of a named node is never refused. */
  lemma NamedNodesAreTraced(events: seq<Event>, s: Twin, root: Node)
    requires root.id != NO_ID
    ensures TraceOf(IndexAll(events), s, root).Ok?
  {
    hide InOrder, Grouped, GroupRows, Reaches;
    EdgesAreUsable(events);
    InOrderLists(AncestorsOf(IndexAll(events), root, s.seqNo));
    InOrderLists(DependentsOf(IndexAll(events), root, s.seqNo));
  }

  lemma CoherentGrounds(s: Facts)
    requires Coherent(s)
    ensures ClaimsGrounded(s.evidence, s.claims, s.staleClaims) && NO_ID !in s.claims
  {}

  /** A group's row lists its members. */
  lemma MemberIsListed(evidence: map<Id, Evidence>, ids: set<Id>, e: Id)
    requires e in ids && e in evidence && evidence[e].group != NO_ID
    ensures exists row :: row in GroupRows(Grouped(evidence, ids)) && row.0 == evidence[e].group && e in row.1
  {
    hide Sorted;
    var g, groups := evidence[e].group, Grouped(evidence, ids);
    var names := Sorted(groups.Keys);
    assert g in GroupNames(evidence, ids) && g in Elements(names);
    var i :| 0 <= i < |names| && names[i] == g;
    assert e in Members(evidence, ids, g) && e in Elements(Sorted(Members(evidence, ids, g)));
    assert GroupRows(groups)[i] == (g, groups[g]);
  }

  /**
    The trace of a claim that is not stale shows all of its support: each reference's evidence is
    listed under the independence group that the claim counts it for. The index, the facts and the
    grounding of claims have to agree for that.
   */
  lemma SupportIsTraced(twin: Id, events: seq<Event>, c: Id, i: nat)
    requires FoldAll(twin, events).Ok?
    requires var s := FoldAll(twin, events).value.facts;
             c in s.claims && c !in s.staleClaims && i < |s.claims[c].body.provenance|
    ensures var s := FoldAll(twin, events).value; var ref := s.facts.claims[c].body.provenance[i];
            var trace := TraceOf(IndexAll(events), s, Node(ClaimKind, c));
            && trace.Ok? && Node(EvidenceKind, ref.evidence) in trace.value.ancestors
            && (ref.group != NO_ID ==>
                  exists row :: row in trace.value.groups && row.0 == ref.group && ref.evidence in row.1)
  {
    hide AncestorsOf, DependentsOf, ReplayStep, Coherent, Sorted, InOrder, Grouped, GroupRows;
    var s := FoldAll(twin, events).value;
    var ref, root := s.facts.claims[c].body.provenance[i], Node(ClaimKind, c);
    FoldPosition(EmptyTwin(twin), events);
    CitedIsAncestor(twin, events, c, ref.evidence);
    ReachableIsCoherent(twin, events);
    CoherentGrounds(s.facts);
    assert Grounded(s.facts.evidence, s.facts.claims[c].body.provenance);
    NamedNodesAreTraced(events, s, root);
    InOrderLists(AncestorsOf(IndexAll(events), root, s.seqNo));
    if ref.group != NO_ID {
      MemberIsListed(s.facts.evidence, EvidenceIds(AncestorsOf(IndexAll(events), root, s.seqNo), root), ref.evidence);
    }
  }
}
