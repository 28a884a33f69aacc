/**
  The lineage index over whole runs: it can be rebuilt from the ledger without a trace, a query at
  a cutoff is a query of the past, and a deletion queues what the fold marks stale.
 */
module LineageHistory {
  import opened Types
  import opened Chain
  import opened Aggregate
  import opened Fold
  import opened Staleness
  import opened Lineage

  /** The index after indexing events one by one as they are appended. */
  ghost function IndexFrom(ix: Index, events: seq<Event>): Index {
    if events == [] then ix else
      IndexEvent(IndexFrom(ix, events[..|events| - 1]), events[|events| - 1])
  }

  ghost function IndexAll(events: seq<Event>): Index {
    IndexFrom(EMPTY_INDEX, events)
  }

  lemma IndexSnoc(ix: Index, events: seq<Event>, e: Event)
    ensures IndexFrom(ix, events + [e]) == IndexEvent(IndexFrom(ix, events), e)
  {
    assert (events + [e])[..|events|] == events;
  }

  /** Every step keeps the stamps of known edges and the rows of known impacts, marks included. */
  lemma {:induction false} IndexGrows(ix: Index, events: seq<Event>, n: nat)
    requires n <= |events|
    ensures var a, b := IndexFrom(ix, events[..n]), IndexFrom(ix, events);
            && a.edges.Keys <= b.edges.Keys && (forall d :: d in a.edges ==> b.edges[d] == a.edges[d])
            && a.queue.Keys <= b.queue.Keys && (forall k :: k in a.queue ==> b.queue[k] == a.queue[k])
  {
    if n < |events| {
      var front := events[..|events| - 1];
      IndexGrows(ix, front, n);
      assert front[..n] == events[..n];
    } else {
      assert events[..n] == events;
    }
  }

  // ---------------------------------------------------------------- queries of the past

  lemma {:induction false} StampsAreBounded(events: seq<Event>, d: Edge)
    requires Numbered(events) && d in IndexAll(events).edges
    ensures 1 <= IndexAll(events).edges[d] <= |events|
  {
    if events != [] {
      var front := events[..|events| - 1];
      if d in IndexAll(front).edges {
        StampsAreBounded(front, d);
      }
    }
  }

  lemma {:induction false} LateEdge(events: seq<Event>, cutoff: nat, d: Edge)
    requires Numbered(events) && cutoff <= |events|
    requires d in IndexAll(events).edges && d !in IndexAll(events[..cutoff]).edges
    ensures IndexAll(events).edges[d] > cutoff
  {
    assert events[..|events|] == events;
    if cutoff < |events| {
      var front := events[..|events| - 1];
      assert front[..cutoff] == events[..cutoff];
      if d in IndexAll(front).edges {
        LateEdge(front, cutoff, d);
      }
    }
  }

  /** The edges visible at a cutoff are the edges that existed when the ledger had that length. */
  lemma {:induction false} CutoffIsHistory(events: seq<Event>, cutoff: nat)
    requires Numbered(events) && cutoff <= |events|
    ensures AtCutoff(IndexAll(events).edges, cutoff) == IndexAll(events[..cutoff]).edges.Keys
  {
    IndexGrows(EMPTY_INDEX, events, cutoff);
    var past, now := IndexAll(events[..cutoff]).edges, IndexAll(events).edges;
    forall d | d in now
      ensures d in AtCutoff(now, cutoff) <==> d in past
    {
      if d in past {
        StampsAreBounded(events[..cutoff], d);
      } else {
        LateEdge(events, cutoff, d);
      }
    }
  }

  /** A query at a cutoff answers, at every later head, what it answered when the head was there. */
  lemma QueryOfThePastIsStable(events: seq<Event>, cutoff: nat, a: Node)
    requires Numbered(events) && cutoff <= |events|
    ensures DependentsOf(IndexAll(events), a, cutoff) == DependentsOf(IndexAll(events[..cutoff]), a, cutoff)
    ensures AncestorsOf(IndexAll(events), a, cutoff) == AncestorsOf(IndexAll(events[..cutoff]), a, cutoff)
  {
    CutoffIsHistory(events, cutoff);
    CutoffIsHistory(events[..cutoff], cutoff);
    assert events[..cutoff][..cutoff] == events[..cutoff];
  }

  // ---------------------------------------------------------------- rebuilding

  /** The event types that the rebuild selects. */
  predicate IsIndexed(p: Payload) {
    || p.EntityLinked? || p.ClaimProposed? || p.ClaimSuperseded? || p.ContradictionDetected?
    || p.CorrectionRecorded? || p.ProjectionIssued? || p.EvidenceDeleted?
  }

  function OnlyIndexed(events: seq<Event>): seq<Event> {
    if events == [] then [] else
      OnlyIndexed(events[..|events| - 1])
      + if IsIndexed(events[|events| - 1].req.payload) then [events[|events| - 1]] else []
  }

  /** The migration: the edge table starts empty, the queue table is the one that is there. */
  method RebuildIndex(events: seq<Event>, queue: map<Impact, QueueRow>) returns (ix: Index)
    ensures ix == IndexFrom(Index(map[], queue), OnlyIndexed(events))
  {
    var rows := OnlyIndexed(events);
    ix := Index(map[], queue);
    for i := 0 to |rows|
      invariant ix == IndexFrom(Index(map[], queue), rows[..i])
    {
      IndexSnoc(Index(map[], queue), rows[..i], rows[i]);
      assert rows[..i] + [rows[i]] == rows[..i + 1];
      ix := IndexDependencies(ix, rows[i]);
    }
    assert rows[..|rows|] == rows;
  }

  lemma OthersAreNotIndexed(ix: Index, e: Event)
    requires !IsIndexed(e.req.payload)
    ensures IndexEvent(ix, e) == ix
  {
    InsertNone(ix.edges, e.seqNo);
  }

  lemma {:induction false} SelectionLosesNothing(ix: Index, events: seq<Event>)
    ensures IndexFrom(ix, OnlyIndexed(events)) == IndexFrom(ix, events)
  {
    if events != [] {
      var front, e := events[..|events| - 1], events[|events| - 1];
      SelectionLosesNothing(ix, front);
      if IsIndexed(e.req.payload) {
        IndexSnoc(ix, OnlyIndexed(front), e);
      } else {
        OthersAreNotIndexed(IndexFrom(ix, front), e);
        assert OnlyIndexed(events) == OnlyIndexed(front);
      }
    }
  }

  lemma {:induction false} ReplayOverQueue(events: seq<Event>, queue: map<Impact, QueueRow>)
    requires IndexAll(events).queue.Keys <= queue.Keys
    ensures IndexFrom(Index(map[], queue), events) == Index(IndexAll(events).edges, queue)
  {
    if events != [] {
      var front, e := events[..|events| - 1], events[|events| - 1];
      IndexGrows(EMPTY_INDEX, events, |events| - 1);
      ReplayOverQueue(front, queue);
      var was, now := Index(IndexAll(front).edges, queue), IndexEvent(Index(IndexAll(front).edges, queue), e);
      assert now.edges == IndexAll(events).edges;
      assert now.queue.Keys == queue.Keys && forall k :: k in queue ==> now.queue[k] == queue[k];
      assert now.queue == queue;
    }
  }

  /** What an index must be at a given ledger; when rows are processed is up to the workers. */
  ghost predicate Faithful(ix: Index, events: seq<Event>) {
    && ix.edges == IndexAll(events).edges
    && ix.queue.Keys == IndexAll(events).queue.Keys
    && forall k :: k in ix.queue ==>
         ix.queue[k].(processedAt := None) == IndexAll(events).queue[k].(processedAt := None)
  }

  function MarkProcessed(ix: Index, k: Impact, now: int): (Index, bool) {
    if k in ix.queue && ix.queue[k].processedAt.None?
    then (ix.(queue := ix.queue[k := ix.queue[k].(processedAt := Some(now))]), true)
    else (ix, false)
  }

  /** Deleting the edge table and rebuilding it from the ledger changes nothing at all. */
  lemma RebuildIsIdentity(events: seq<Event>, ix: Index)
    requires Faithful(ix, events)
    ensures IndexFrom(Index(map[], ix.queue), OnlyIndexed(events)) == ix
  {
    SelectionLosesNothing(Index(map[], ix.queue), events);
    ReplayOverQueue(events, ix.queue);
  }

  datatype IndexStep =
    | AppendStep(event: Event)
    | ProcessStep(impact: Impact, now: int)
    | RebuildStep

  datatype IndexWorld = IndexWorld(events: seq<Event>, index: Index)

  ghost function TakeIndexStep(w: IndexWorld, step: IndexStep): IndexWorld {
    match step
    case AppendStep(e) => IndexWorld(w.events + [e], IndexEvent(w.index, e))
    case ProcessStep(k, now) => w.(index := MarkProcessed(w.index, k, now).0)
    case RebuildStep => w.(index := IndexFrom(Index(map[], w.index.queue), OnlyIndexed(w.events)))
  }

  ghost function RunIndex(steps: seq<IndexStep>): IndexWorld {
    if steps == [] then IndexWorld([], EMPTY_INDEX) else
      TakeIndexStep(RunIndex(steps[..|steps| - 1]), steps[|steps| - 1])
  }

  lemma FaithfulStep(w: IndexWorld, step: IndexStep)
    requires Faithful(w.index, w.events)
    ensures Faithful(TakeIndexStep(w, step).index, TakeIndexStep(w, step).events)
    ensures forall k :: k in w.index.queue && w.index.queue[k].processedAt.Some? ==>
              k in TakeIndexStep(w, step).index.queue && TakeIndexStep(w, step).index.queue[k] == w.index.queue[k]
  {
    match step
    case AppendStep(e) =>
      IndexSnoc(EMPTY_INDEX, w.events, e);
    case ProcessStep(k, now) =>
    case RebuildStep =>
      RebuildIsIdentity(w.events, w.index);
  }

  /** Appending, processing and rebuilding in any order keep the index that the ledger determines. */
  lemma {:induction false} EveryIndexIsFaithful(steps: seq<IndexStep>)
    ensures Faithful(RunIndex(steps).index, RunIndex(steps).events)
  {
    if steps != [] {
      EveryIndexIsFaithful(steps[..|steps| - 1]);
      FaithfulStep(RunIndex(steps[..|steps| - 1]), steps[|steps| - 1]);
    }
  }

  /** A processed invalidation stays processed, at the same time, whatever follows. */
  lemma {:induction false} ProcessedForever(steps: seq<IndexStep>, n: nat, k: Impact)
    requires n <= |steps| && k in RunIndex(steps[..n]).index.queue
    requires RunIndex(steps[..n]).index.queue[k].processedAt.Some?
    ensures k in RunIndex(steps).index.queue
    ensures RunIndex(steps).index.queue[k] == RunIndex(steps[..n]).index.queue[k]
  {
    if n < |steps| {
      var front := steps[..|steps| - 1];
      assert front[..n] == steps[..n];
      ProcessedForever(front, n, k);
      EveryIndexIsFaithful(front);
      FaithfulStep(RunIndex(front), steps[|steps| - 1]);
    } else {
      assert steps[..n] == steps;
    }
  }

  // ---------------------------------------------------------------- agreement with the fold

  /** Every citation and every source that the facts hold is an edge of the index. */
  predicate Covered(s: Facts, edges: set<Edge>) {
    && (forall c :: c in s.claims ==> CitationEdges(s.claims[c].body.provenance, Node(ClaimKind, c)) <= edges)
    && (forall l :: l in s.links ==> CitationEdges(s.links[l].body.provenance, Node(EntityKind, l)) <= edges)
    && (forall p :: p in s.projections && p != NO_ID ==>
          (set d | d in ClaimEdges(s.projections[p].sources, Node(ProjectionKind, p), CompiledFrom) && Usable(d)) <= edges)
    && (forall d :: d in edges ==> Usable(d))
  }

  lemma CitationsAreUsable(refs: seq<Ref>, dependent: Node)
    requires ValidProvenance(refs) && dependent.id != NO_ID
    ensures forall d :: d in CitationEdges(refs, dependent) ==> Usable(d)
  {}

  lemma CoverageGrows(s: Facts, edges: set<Edge>, more: set<Edge>)
    requires Covered(s, edges) && forall d :: d in more ==> Usable(d)
    ensures Covered(s, edges + more)
  {}

  lemma DeletionKeepsSources(s: Facts, id: Id)
    ensures var t := DeleteEvidence(s, id); t.claims == s.claims && t.links == s.links && t.projections == s.projections
  {}

  lemma SupersessionKeepsSources(s: Facts, id: Id)
    ensures var t := SupersedeClaim(s, id); t.claims == s.claims && t.links == s.links && t.projections == s.projections
  {}

  lemma CorrectionKeepsSources(s: Facts, id: Id, b: Correction, at: int)
    ensures var t := CorrectEvidence(s, id, b, at);
            t.claims == s.claims && t.links == s.links && t.projections == s.projections
    ensures var t := CorrectClaim(s, id, b, at);
            t.claims == s.claims && t.links == s.links && t.projections == s.projections
  {}

  /** Only three event types add a claim, a link or a projection; no event takes one away. */
  lemma OthersKeepSources(s: Facts, p: Payload, at: int)
    requires !p.EntityLinked? && !p.ClaimProposed? && !p.ProjectionIssued?
    ensures var t := Effect(s, p, at);
            t.claims == s.claims && t.links == s.links && t.projections == s.projections
  {
    hide DeleteEvidence, SupersedeClaim, CorrectEvidence, CorrectClaim, Without;
    match p
    case EvidenceDeleted(id) => DeletionKeepsSources(s, id);
    case ClaimSuperseded(id, _) => SupersessionKeepsSources(s, id);
    case CorrectionRecorded(id, b) => CorrectionKeepsSources(s, id, b, at);
    case _ =>
  }

  lemma CoverageStep(s: Facts, p: Payload, unsealed: bool, at: int, edges: set<Edge>)
    requires Covered(s, edges) && ValidPayload(p, unsealed) && Accepts(s, p)
    ensures Covered(Effect(s, p, at), edges + (set d | d in EdgesOf(p) && Usable(d)))
  {
    var more := set d | d in EdgesOf(p) && Usable(d);
    CoverageGrows(s, edges, more);
    if p.EntityLinked? {
      CitationsAreUsable(p.linkBody.provenance, Node(EntityKind, p.link));
      assert EdgesOf(p) == more;
    } else if p.ClaimProposed? {
      CitationsAreUsable(p.claimBody.provenance, Node(ClaimKind, p.claim));
      assert EdgesOf(p) == more;
    } else if !p.ProjectionIssued? {
      OthersKeepSources(s, p, at);
    }
  }

  /** Indexing one more event adds its usable edges. */
  lemma OneMoreIndexed(events: seq<Event>, n: nat)
    requires n < |events|
    ensures IndexAll(events[..n + 1]).edges.Keys
         == IndexAll(events[..n]).edges.Keys + (set d | d in EdgesOf(events[n].req.payload) && Usable(d))
  {
    hide EdgesOf, Usable;
    IndexSnoc(EMPTY_INDEX, events[..n], events[n]);
    assert events[..n] + [events[n]] == events[..n + 1];
  }

  lemma AppliedIsValid(twinId: Id, events: seq<Event>, n: nat)
    requires FoldAll(twinId, events).Ok? && n < |events|
    ensures ValidPayload(events[n].req.payload, events[n].seqNo == 0)
  {
    PrefixReplays(EmptyTwin(twinId), events, n + 1);
    assert events[..n + 1][..n] == events[..n];
  }

  lemma StaysCovered(twinId: Id, events: seq<Event>, n: nat)
    requires FoldAll(twinId, events).Ok? && n < |events|
    requires Covered(FactsAt(twinId, events, n), IndexAll(events[..n]).edges.Keys)
    ensures Covered(FactsAt(twinId, events, n + 1), IndexAll(events[..n + 1]).edges.Keys)
  {
    hide Covered, FactsAt, FoldAll, IndexAll, EdgesOf, Usable, Accepts, Effect, Grows, MarksSpread, ValidPayload;
    StepSpreads(twinId, events, n);
    AppliedIsValid(twinId, events, n);
    OneMoreIndexed(events, n);
    var e := events[n];
    CoverageStep(FactsAt(twinId, events, n), e.req.payload, e.seqNo == 0, e.recordedAt, IndexAll(events[..n]).edges.Keys);
  }

  lemma {:induction false} FoldIsCovered(twinId: Id, events: seq<Event>, n: nat)
    requires FoldAll(twinId, events).Ok? && n <= |events|
    ensures Covered(FactsAt(twinId, events, n), IndexAll(events[..n]).edges.Keys)
  {
    if n > 0 {
      FoldIsCovered(twinId, events, n - 1);
      StaysCovered(twinId, events, n - 1);
    }
  }

  /** The claim, link or projection has a row in the queue of the n-th event's deletion. */
  ghost predicate Queued(events: seq<Event>, n: nat, node: Node)
    requires n < |events|
  {
    Impact(events[n].seqNo, node) in IndexAll(events[..n + 1]).queue
  }

  lemma ReachedIsQueued(events: seq<Event>, n: nat, node: Node)
    requires n < |events| && events[n].req.payload.EvidenceDeleted? && events[n].req.payload.evidence != NO_ID
    requires Reaches(IndexAll(events[..n]).edges.Keys, Node(EvidenceKind, events[n].req.payload.evidence), node)
    ensures Queued(events, n, node)
  {
    IndexSnoc(EMPTY_INDEX, events[..n], events[n]);
    assert events[..n] + [events[n]] == events[..n + 1];
    var before := IndexAll(events[..n]);
    InsertNone(before.edges, events[n].seqNo);
    ClosureIsReachability(before.edges.Keys, Node(EvidenceKind, events[n].req.payload.evidence), node);
  }

  lemma CitedReaches(edges: set<Edge>, refs: seq<Ref>, evidence: Id, dependent: Node)
    requires CitationEdges(refs, dependent) <= edges && Cites(refs, evidence)
    ensures Reaches(edges, Node(EvidenceKind, evidence), dependent)
  {
    var i :| 0 <= i < |refs| && refs[i].evidence == evidence;
    assert Edge(Node(EvidenceKind, refs[i].evidence), dependent, Cited(refs[i].relation)) in CitationEdges(refs, dependent);
    assert Linked(edges, Node(EvidenceKind, evidence), dependent);
    ReachStep(edges, Node(EvidenceKind, evidence), Node(EvidenceKind, evidence), dependent);
  }

  /** What cites the deleted evidence is stale in the fold and queued in the index. */
  lemma DeletionQueuesCitations(twinId: Id, events: seq<Event>, n: nat)
    requires FoldAll(twinId, events).Ok? && n < |events| && events[n].req.payload.EvidenceDeleted?
    ensures var s, t := FactsAt(twinId, events, n), FactsAt(twinId, events, n + 1);
            var id := events[n].req.payload.evidence;
            && (forall c :: c in ClaimsCiting(s.claims, id) ==>
                  c in t.staleClaims && Queued(events, n, Node(ClaimKind, c)))
            && (forall l :: l in LinksCiting(s.links, id) ==>
                  l in t.staleLinks && Queued(events, n, Node(EntityKind, l)))
  {
    var s, id := FactsAt(twinId, events, n), events[n].req.payload.evidence;
    var edges := IndexAll(events[..n]).edges.Keys;
    FoldIsCovered(twinId, events, n);
    StepSpreads(twinId, events, n);
    AppliedIsValid(twinId, events, n);
    forall c | c in ClaimsCiting(s.claims, id)
      ensures Queued(events, n, Node(ClaimKind, c))
    {
      CitedReaches(edges, s.claims[c].body.provenance, id, Node(ClaimKind, c));
      ReachedIsQueued(events, n, Node(ClaimKind, c));
    }
    forall l | l in LinksCiting(s.links, id)
      ensures Queued(events, n, Node(EntityKind, l))
    {
      CitedReaches(edges, s.links[l].body.provenance, id, Node(EntityKind, l));
      ReachedIsQueued(events, n, Node(EntityKind, l));
    }
  }

  lemma {:induction false} EdgesAreUsable(events: seq<Event>)
    ensures forall d :: d in IndexAll(events).edges ==> Usable(d)
  {
    if events != [] {
      EdgesAreUsable(events[..|events| - 1]);
    }
  }

  /** Nothing queues a node without an identifier. */
  lemma {:induction false} NoEmptyNodeIsQueued(events: seq<Event>, k: Impact)
    requires k in IndexAll(events).queue
    ensures k.node.id != NO_ID
  {
    var front, e := events[..|events| - 1], events[|events| - 1];
    if k in IndexAll(front).queue {
      NoEmptyNodeIsQueued(front, k);
    } else {
      assert k.node in Closure(IndexAll(events).edges.Keys, Node(EvidenceKind, e.req.payload.evidence));
      EdgesAreUsable(events);
    }
  }

  lemma SourceIsLinked(s: Facts, edges: set<Edge>, p: Id, c: Id)
    requires Covered(s, edges) && p in s.projections && p != NO_ID && c in s.projections[p].sources && c != NO_ID
    ensures Linked(edges, Node(ClaimKind, c), Node(ProjectionKind, p))
  {
    var d := Edge(Node(ClaimKind, c), Node(ProjectionKind, p), CompiledFrom);
    assert d in ClaimEdges(s.projections[p].sources, Node(ProjectionKind, p), CompiledFrom) && Usable(d);
  }

  /**
    A projection compiled from a claim that cites the deleted evidence is marked stale by the fold;
    the deletion's queue holds it exactly if its identifier is not empty. Validation asks for the
    presence of a projection identifier and not for a non-empty one.
   */
  lemma DeletionQueuesProjections(twinId: Id, events: seq<Event>, n: nat, p: Id)
    requires FoldAll(twinId, events).Ok? && n < |events| && events[n].req.payload.EvidenceDeleted?
    requires var s := FactsAt(twinId, events, n);
             p in ProjectionsDrawingOn(s.projections, ClaimsCiting(s.claims, events[n].req.payload.evidence))
    ensures p in FactsAt(twinId, events, n + 1).staleProjections
    ensures Queued(events, n, Node(ProjectionKind, p)) <==> p != NO_ID
  {
    var s, id := FactsAt(twinId, events, n), events[n].req.payload.evidence;
    var edges := IndexAll(events[..n]).edges.Keys;
    FoldIsCovered(twinId, events, n);
    StepSpreads(twinId, events, n);
    AppliedIsValid(twinId, events, n);
    ReachableFacts(twinId, events, n);
    var c :| c in s.projections[p].sources && c in ClaimsCiting(s.claims, id);
    assert c != NO_ID;
    assert p in FactsAt(twinId, events, n + 1).staleProjections;
    if p == NO_ID {
      if Queued(events, n, Node(ProjectionKind, p)) {
        NoEmptyNodeIsQueued(events[..n + 1], Impact(events[n].seqNo, Node(ProjectionKind, p)));
      }
    } else {
      CitedReaches(edges, s.claims[c].body.provenance, id, Node(ClaimKind, c));
      SourceIsLinked(s, edges, p, c);
      ReachStep(edges, Node(EvidenceKind, id), Node(ClaimKind, c), Node(ProjectionKind, p));
      ReachedIsQueued(events, n, Node(ProjectionKind, p));
    }
  }

  /** An empty projection identifier is indeed accepted, and indexed by nothing. */
  lemma EmptyProjectionIdIsAccepted(s: Facts, b: Projection)
    requires s.subject.Some? && NO_ID !in s.projections
    ensures ValidPayload(ProjectionIssued(NO_ID, b), true)
    ensures Accepts(s, ProjectionIssued(NO_ID, b))
    ensures forall d :: d in EdgesOf(ProjectionIssued(NO_ID, b)) ==> !Usable(d)
  {}
}
