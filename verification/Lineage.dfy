/**
  The lineage index of one twin: typed, sequence-stamped edges and the queue of invalidations that
  deletions leave. It is maintained event by event, can be rebuilt from the ledger, and answers
  transitive queries in both directions over a graph that may be cyclic.
 */
module Lineage {
  import opened Types
  import opened Orders

  datatype Kind = EvidenceKind | EntityKind | ClaimKind | ContradictionKind | CorrectionKind | ProjectionKind

  datatype Node = Node(kind: Kind, id: Id)

  datatype Relation = Cited(relation: Id) | SupersededBy | Contradicts | CorrectedBy | Replacement | CompiledFrom

  datatype Edge = Edge(source: Node, dependent: Node, relation: Relation)

  /** The key of a queue row: which deletion, and what it invalidates. */
  datatype Impact = Impact(deletion: nat, node: Node)

  datatype QueueRow = QueueRow(evidence: Id, createdAt: int, processedAt: Option<int>)

  /** Each edge is stamped with the sequence number of the event that first inserted it. */
  datatype Index = Index(edges: map<Edge, nat>, queue: map<Impact, QueueRow>)

  const EMPTY_INDEX := Index(map[], map[])

  // ---------------------------------------------------------------- reachability

  ghost predicate Linked(edges: set<Edge>, a: Node, b: Node) {
    exists d :: d in edges && d.source == a && d.dependent == b
  }

  /** A path of one edge or more. */
  ghost predicate IsPath(edges: set<Edge>, p: seq<Node>, a: Node, b: Node) {
    && |p| >= 2 && p[0] == a && p[|p| - 1] == b
    && forall i :: 0 <= i < |p| - 1 ==> Linked(edges, p[i], p[i + 1])
  }

  ghost predicate Reaches(edges: set<Edge>, a: Node, b: Node) {
    exists p :: IsPath(edges, p, a, b)
  }

  /** The non-reflexive transitive closure: a node is in its own closure only on a cycle. */
  ghost function Closure(edges: set<Edge>, a: Node): set<Node> {
    set d | d in edges && Reaches(edges, a, d.dependent) :: d.dependent
  }

  lemma ClosureIsReachability(edges: set<Edge>, a: Node, b: Node)
    ensures b in Closure(edges, a) <==> Reaches(edges, a, b)
  {
    if Reaches(edges, a, b) {
      var p :| IsPath(edges, p, a, b);
      assert Linked(edges, p[|p| - 2], p[|p| - 2 + 1]);
    }
  }

  lemma ReachStep(edges: set<Edge>, a: Node, b: Node, c: Node)
    requires a == b || Reaches(edges, a, b)
    requires Linked(edges, b, c)
    ensures Reaches(edges, a, c)
  {
    if a == b {
      assert IsPath(edges, [a, c], a, c);
    } else {
      var p :| IsPath(edges, p, a, b);
      var q := p + [c];
      forall i | 0 <= i < |q| - 1
        ensures Linked(edges, q[i], q[i + 1])
      {
        if i < |p| - 1 {
          assert Linked(edges, p[i], p[i + 1]);
        }
      }
      assert IsPath(edges, q, a, c);
    }
  }

  lemma MoreEdgesReachMore(edges: set<Edge>, more: set<Edge>, a: Node, b: Node)
    requires edges <= more && Reaches(edges, a, b)
    ensures Reaches(more, a, b)
  {
    var p :| IsPath(edges, p, a, b);
    forall i | 0 <= i < |p| - 1
      ensures Linked(more, p[i], p[i + 1])
    {
      assert Linked(edges, p[i], p[i + 1]);
    }
    assert IsPath(more, p, a, b);
  }

  /** A set that holds the successors of a and of all its own members holds all that a reaches. */
  lemma {:induction false} ClosedSetHoldsPath(edges: set<Edge>, s: set<Node>, a: Node, p: seq<Node>, i: nat)
    requires forall x, y :: (x == a || x in s) && Linked(edges, x, y) ==> y in s
    requires |p| >= 2 && p[0] == a && 1 <= i < |p|
    requires forall k :: 0 <= k < |p| - 1 ==> Linked(edges, p[k], p[k + 1])
    ensures p[i] in s
  {
    if i > 1 {
      ClosedSetHoldsPath(edges, s, a, p, i - 1);
    }
    assert Linked(edges, p[i - 1], p[i - 1 + 1]);
  }

  function Successors(edges: set<Edge>, a: Node): (r: set<Node>)
    ensures forall b :: b in r <==> Linked(edges, a, b)
  {
    set d | d in edges && d.source == a :: d.dependent
  }

  /**
    The recursive query with UNION semantics: rows enter the result once, each row that enters is
    expanded once. It ends on any graph and returns exactly the transitive closure.
   */
  method Traverse(edges: set<Edge>, start: Node) returns (found: set<Node>)
    ensures found == Closure(edges, start)
  {
    found := Successors(edges, start);
    var pending := found;
    ghost var dependents := set d | d in edges :: d.dependent;
    forall n | n in found
      ensures Reaches(edges, start, n)
    {
      ReachStep(edges, start, start, n);
    }
    while pending != {}
      invariant pending <= found <= dependents
      invariant forall n :: n in found ==> Reaches(edges, start, n)
      invariant forall x, y :: (x == start || x in found - pending) && Linked(edges, x, y) ==> y in found
      decreases dependents - (found - pending)
    {
      var n :| n in pending;
      var next := Successors(edges, n);
      forall m | m in next
        ensures Reaches(edges, start, m)
      {
        ReachStep(edges, start, n, m);
      }
      ghost var expanded := found - pending;
      pending := (pending - {n}) + (next - found);
      found := found + next;
      assert found - pending == expanded + {n};
    }
    forall n | n in Closure(edges, start)
      ensures n in found
    {
      var p :| IsPath(edges, p, start, n);
      ClosedSetHoldsPath(edges, found, start, p, |p| - 1);
    }
    forall n | n in found
      ensures n in Closure(edges, start)
    {
      ClosureIsReachability(edges, start, n);
    }
  }

  // ---------------------------------------------------------------- queries at a cutoff

  function AtCutoff(edges: map<Edge, nat>, cutoff: int): set<Edge> {
    set d | d in edges && edges[d] <= cutoff
  }

  function Reversed(edges: set<Edge>): set<Edge> {
    set d | d in edges :: Edge(d.dependent, d.source, d.relation)
  }

  ghost function DependentsOf(ix: Index, a: Node, cutoff: int): set<Node> {
    Closure(AtCutoff(ix.edges, cutoff), a)
  }

  ghost function AncestorsOf(ix: Index, b: Node, cutoff: int): set<Node> {
    Closure(Reversed(AtCutoff(ix.edges, cutoff)), b)
  }

  // The answers of queries are ordered by kind, whose names are alphabetical here, and identifier.

  function KindRank(k: Kind): nat {
    match k
    case ClaimKind => 0
    case ContradictionKind => 1
    case CorrectionKind => 2
    case EntityKind => 3
    case EvidenceKind => 4
    case ProjectionKind => 5
  }

  predicate NodeBefore(a: Node, b: Node) {
    KindRank(a.kind) < KindRank(b.kind) || (a.kind == b.kind && a.id < b.id)
  }

  predicate NodesAscend(nodes: seq<Node>) {
    forall i, j :: 0 <= i < j < |nodes| ==> NodeBefore(nodes[i], nodes[j])
  }

  lemma OfKindLists(nodes: set<Node>, k: Kind, ids: seq<Id>, r: seq<Node>)
    requires Ascending(ids) && Elements(ids) == (set n | n in nodes && n.kind == k :: n.id)
    requires |r| == |ids| && forall i :: 0 <= i < |ids| ==> r[i] == Node(k, ids[i])
    ensures Elements(r) == set n | n in nodes && n.kind == k
  {
    forall n | n in nodes && n.kind == k
      ensures n in r
    {
      assert n.id in Elements(ids);
      var i :| 0 <= i < |ids| && ids[i] == n.id;
      assert r[i] == n;
    }
    forall n | n in r
      ensures n in nodes && n.kind == k
    {
      var i :| 0 <= i < |r| && r[i] == n;
      assert ids[i] in Elements(ids);
    }
  }

  function OfKind(nodes: set<Node>, k: Kind): (r: seq<Node>)
    ensures Elements(r) == (set n | n in nodes && n.kind == k) && NodesAscend(r)
  {
    var ids := Sorted(set n | n in nodes && n.kind == k :: n.id);
    var r := seq(|ids|, i requires 0 <= i < |ids| => Node(k, ids[i]));
    OfKindLists(nodes, k, ids, r);
    r
  }

  function InOrder(nodes: set<Node>): seq<Node> {
    OfKind(nodes, ClaimKind) + OfKind(nodes, ContradictionKind) + OfKind(nodes, CorrectionKind)
    + OfKind(nodes, EntityKind) + OfKind(nodes, EvidenceKind) + OfKind(nodes, ProjectionKind)
  }

  lemma AscendTogether(a: seq<Node>, b: seq<Node>, nodes: set<Node>, k: Kind)
    requires NodesAscend(a) && b == OfKind(nodes, k)
    requires forall n :: n in a ==> KindRank(n.kind) < KindRank(k)
    ensures NodesAscend(a + b) && forall n :: n in a + b ==> KindRank(n.kind) <= KindRank(k)
  {
    hide OfKind;
    assert forall i :: 0 <= i < |b| ==> b[i] in Elements(b);
    assert forall i :: 0 <= i < |a| ==> a[i] in a;
  }

  /** Each node once, in ascending order. */
  lemma InOrderLists(nodes: set<Node>)
    ensures NodesAscend(InOrder(nodes)) && forall n :: n in InOrder(nodes) <==> n in nodes
  {
    hide OfKind;
    var a := OfKind(nodes, ClaimKind);
    assert forall n :: n in a <==> n in Elements(a);
    var b := a + OfKind(nodes, ContradictionKind);
    AscendTogether(a, OfKind(nodes, ContradictionKind), nodes, ContradictionKind);
    var c := b + OfKind(nodes, CorrectionKind);
    AscendTogether(b, OfKind(nodes, CorrectionKind), nodes, CorrectionKind);
    var d := c + OfKind(nodes, EntityKind);
    AscendTogether(c, OfKind(nodes, EntityKind), nodes, EntityKind);
    var e := d + OfKind(nodes, EvidenceKind);
    AscendTogether(d, OfKind(nodes, EvidenceKind), nodes, EvidenceKind);
    AscendTogether(e, OfKind(nodes, ProjectionKind), nodes, ProjectionKind);
    forall n
      ensures n in InOrder(nodes) <==> n in nodes
    {
      assert forall k :: n in OfKind(nodes, k) <==> n in Elements(OfKind(nodes, k));
    }
  }

  /** The largest sequence number that the database can hold. */
  const MAX_SEQUENCE := 0x7FFF_FFFF_FFFF_FFFF

  function Cutoff(upTo: Option<int>): int {
    if upTo.Some? then upTo.value else MAX_SEQUENCE
  }

  /** The direct neighbours: a row for each edge, so a neighbour appears once for each relation. */
  function DirectRows(edges: set<Edge>, a: Node, nodes: seq<Node>): seq<Node> {
    if nodes == [] then [] else
      var n := nodes[|nodes| - 1];
      DirectRows(edges, a, nodes[..|nodes| - 1])
      + seq(|set d | d in edges && d.source == a && d.dependent == n|, _ => n)
  }

  ghost function Answer(edges: set<Edge>, a: Node, transitive: bool): seq<Node> {
    if transitive then InOrder(Closure(edges, a)) else DirectRows(edges, a, InOrder(Successors(edges, a)))
  }

  method Query(edges: set<Edge>, a: Node, transitive: bool) returns (rows: seq<Node>)
    ensures rows == Answer(edges, a, transitive)
  {
    hide InOrder;
    if transitive {
      var found := Traverse(edges, a);
      return InOrder(found);
    }
    rows := [];
    var nodes := InOrder(Successors(edges, a));
    for i := 0 to |nodes|
      invariant rows == DirectRows(edges, a, nodes[..i])
    {
      var relations := set d | d in edges && d.source == a && d.dependent == nodes[i];
      rows := rows + seq(|relations|, _ => nodes[i]);
      assert nodes[..i + 1][..i] == nodes[..i];
    }
    assert nodes[..|nodes|] == nodes;
  }

  /** Before the first event nothing is linked. */
  lemma NothingLinked(a: Node, transitive: bool)
    ensures Answer({}, a, transitive) == []
  {
    InOrderLists({});
    assert Successors({}, a) == {} && Closure({}, a) == {};
  }

  /** What depends on a node at a cutoff, in order; a kind that is none of the six is refused. */
  method Dependents(ix: Index, kind: Option<Kind>, id: Id, transitive: bool, upTo: Option<int>) returns (r: Result<seq<Node>>)
    ensures r == if kind.None? then Err(InvalidValue)
                 else Ok(Answer(AtCutoff(ix.edges, Cutoff(upTo)), Node(kind.value, id), transitive))
  {
    hide Answer;
    if kind.None? {
      return Err(InvalidValue);
    }
    if Cutoff(upTo) < 0 {
      assert AtCutoff(ix.edges, Cutoff(upTo)) == {};
      NothingLinked(Node(kind.value, id), transitive);
      return Ok([]);
    }
    var rows := Query(AtCutoff(ix.edges, Cutoff(upTo)), Node(kind.value, id), transitive);
    return Ok(rows);
  }

  /** What a node depends on, in the same way. */
  method Ancestors(ix: Index, kind: Option<Kind>, id: Id, transitive: bool, upTo: Option<int>) returns (r: Result<seq<Node>>)
    ensures r == if kind.None? then Err(InvalidValue)
                 else Ok(Answer(Reversed(AtCutoff(ix.edges, Cutoff(upTo))), Node(kind.value, id), transitive))
  {
    hide Answer;
    if kind.None? {
      return Err(InvalidValue);
    }
    if Cutoff(upTo) < 0 {
      assert Reversed(AtCutoff(ix.edges, Cutoff(upTo))) == {};
      NothingLinked(Node(kind.value, id), transitive);
      return Ok([]);
    }
    var rows := Query(Reversed(AtCutoff(ix.edges, Cutoff(upTo))), Node(kind.value, id), transitive);
    return Ok(rows);
  }

  lemma {:induction false} RepeatedCount(n: Node, k: nat, b: Node)
    ensures multiset(seq(k, _ => n))[b] == if b == n then k else 0
  {
    if k > 0 {
      RepeatedCount(n, k - 1, b);
      assert seq(k, _ => n) == seq(k - 1, _ => n) + [n];
    }
  }

  lemma {:induction false} DirectRowsCount(edges: set<Edge>, a: Node, nodes: seq<Node>, b: Node)
    requires NodesAscend(nodes)
    ensures multiset(DirectRows(edges, a, nodes))[b]
         == if b in nodes then |set d | d in edges && d.source == a && d.dependent == b| else 0
  {
    if nodes != [] {
      var n := nodes[|nodes| - 1];
      DirectRowsCount(edges, a, nodes[..|nodes| - 1], b);
      assert nodes == nodes[..|nodes| - 1] + [n] && n !in nodes[..|nodes| - 1];
      RepeatedCount(n, |set d | d in edges && d.source == a && d.dependent == n|, b);
    }
  }

  /** A node is listed exactly if it is linked to directly, as often as there are relations, or reached by a path. */
  lemma AnswerLists(edges: set<Edge>, a: Node, transitive: bool, b: Node)
    ensures b in Answer(edges, a, transitive) <==> if transitive then Reaches(edges, a, b) else Linked(edges, a, b)
    ensures transitive ==> NodesAscend(Answer(edges, a, transitive))
    ensures !transitive ==>
      multiset(Answer(edges, a, transitive))[b] == |set d | d in edges && d.source == a && d.dependent == b|
  {
    hide InOrder, DirectRows;
    InOrderLists(Closure(edges, a));
    InOrderLists(Successors(edges, a));
    ClosureIsReachability(edges, a, b);
    if !transitive {
      var nodes, relations := InOrder(Successors(edges, a)), set d | d in edges && d.source == a && d.dependent == b;
      DirectRowsCount(edges, a, nodes, b);
      if b in nodes {
        var d :| d in edges && d.source == a && d.dependent == b;
        assert d in relations;
      } else {
        assert relations == {};
      }
    }
  }

  lemma ClosureGrows(edges: set<Edge>, more: set<Edge>, a: Node)
    requires edges <= more
    ensures Closure(edges, a) <= Closure(more, a)
  {
    forall b | b in Closure(edges, a)
      ensures b in Closure(more, a)
    {
      ClosureIsReachability(edges, a, b);
      MoreEdgesReachMore(edges, more, a, b);
      ClosureIsReachability(more, a, b);
    }
  }

  /** The answers grow with the cutoff: an edge that is visible once stays visible. */
  lemma DependentsGrow(ix: Index, a: Node, early: int, late: int)
    requires early <= late
    ensures DependentsOf(ix, a, early) <= DependentsOf(ix, a, late)
    ensures AncestorsOf(ix, a, early) <= AncestorsOf(ix, a, late)
  {
    ClosureGrows(AtCutoff(ix.edges, early), AtCutoff(ix.edges, late), a);
    ClosureGrows(Reversed(AtCutoff(ix.edges, early)), Reversed(AtCutoff(ix.edges, late)), a);
  }

  lemma LinkReverses(edges: set<Edge>, a: Node, b: Node)
    requires Linked(edges, a, b)
    ensures Linked(Reversed(edges), b, a)
  {
    var d :| d in edges && d.source == a && d.dependent == b;
    assert Edge(d.dependent, d.source, d.relation) in Reversed(edges);
  }

  lemma PathReverses(edges: set<Edge>, a: Node, b: Node)
    requires Reaches(edges, a, b)
    ensures Reaches(Reversed(edges), b, a)
  {
    var p :| IsPath(edges, p, a, b);
    var q := seq(|p|, i requires 0 <= i < |p| => p[|p| - 1 - i]);
    forall i | 0 <= i < |q| - 1
      ensures Linked(Reversed(edges), q[i], q[i + 1])
    {
      var k := |p| - 2 - i;
      assert Linked(edges, p[k], p[k + 1]);
      LinkReverses(edges, p[k], p[k + 1]);
    }
    assert IsPath(Reversed(edges), q, b, a);
  }

  lemma ReversedTwice(edges: set<Edge>)
    ensures Reversed(Reversed(edges)) == edges
  {
    forall d | d in edges
      ensures d in Reversed(Reversed(edges))
    {
      assert Edge(d.dependent, d.source, d.relation) in Reversed(edges);
    }
  }

  /** The two directions of traversal are converses of each other, at every cutoff. */
  lemma DirectionsAreConverse(ix: Index, a: Node, b: Node, cutoff: int)
    ensures b in DependentsOf(ix, a, cutoff) <==> a in AncestorsOf(ix, b, cutoff)
  {
    var edges := AtCutoff(ix.edges, cutoff);
    ClosureIsReachability(edges, a, b);
    ClosureIsReachability(Reversed(edges), b, a);
    ReversedTwice(edges);
    if Reaches(edges, a, b) {
      PathReverses(edges, a, b);
    }
    if Reaches(Reversed(edges), b, a) {
      PathReverses(Reversed(edges), b, a);
    }
  }

  // ---------------------------------------------------------------- indexing an event

  predicate Usable(d: Edge) {
    d.source.id != NO_ID && d.dependent.id != NO_ID
  }

  function CitationEdges(refs: seq<Ref>, dependent: Node): set<Edge> {
    set r | r in refs :: Edge(Node(EvidenceKind, r.evidence), dependent, Cited(r.relation))
  }

  function ClaimEdges(claims: seq<Id>, dependent: Node, relation: Relation): set<Edge> {
    set c | c in claims :: Edge(Node(ClaimKind, c), dependent, relation)
  }

  function CorrectionEdges(id: Id, b: Correction): set<Edge> {
    if b.kind.UnknownTarget? then {} else
      var kind := if b.kind.EvidenceTarget? then EvidenceKind else ClaimKind;
      {Edge(Node(kind, b.target), Node(CorrectionKind, id), CorrectedBy),
       Edge(Node(kind, b.replacement), Node(CorrectionKind, id), Replacement)}
  }

  /** The edges an event calls for; those with an empty end are never inserted. */
  function EdgesOf(p: Payload): set<Edge> {
    match p
    case ClaimProposed(id, b) => CitationEdges(b.provenance, Node(ClaimKind, id))
    case EntityLinked(id, b) => CitationEdges(b.provenance, Node(EntityKind, id))
    case ClaimSuperseded(id, successor) => {Edge(Node(ClaimKind, id), Node(ClaimKind, successor), SupersededBy)}
    case ContradictionDetected(id, b) => ClaimEdges(b.claims, Node(ContradictionKind, id), Contradicts)
    case CorrectionRecorded(id, b) => CorrectionEdges(id, b)
    case ProjectionIssued(id, b) => ClaimEdges(b.sources, Node(ProjectionKind, id), CompiledFrom)
    case _ => {}
  }

  /** INSERT OR IGNORE: the first insertion fixes the stamp. */
  function Insert(edges: map<Edge, nat>, d: Edge, at: nat): map<Edge, nat> {
    if Usable(d) && d !in edges then edges[d := at] else edges
  }

  function InsertAll(edges: map<Edge, nat>, ds: set<Edge>, at: nat): (r: map<Edge, nat>)
    ensures r.Keys == edges.Keys + (set d | d in ds && Usable(d))
    ensures forall d :: d in edges ==> r[d] == edges[d]
    ensures forall d :: d in r && d !in edges ==> r[d] == at
  {
    edges + (map d | d in ds && Usable(d) && d !in edges :: at)
  }

  ghost function ImpactsOf(edges: set<Edge>, evidence: Id, deletion: nat): set<Impact> {
    set n | n in Closure(edges, Node(EvidenceKind, evidence)) :: Impact(deletion, n)
  }

  ghost function Enqueue(queue: map<Impact, QueueRow>, impacts: set<Impact>, row: QueueRow): (r: map<Impact, QueueRow>)
    ensures r.Keys == queue.Keys + impacts
    ensures forall k :: k in queue ==> r[k] == queue[k]
  {
    queue + (map k | k in impacts && k !in queue :: row)
  }

  ghost function IndexEvent(ix: Index, e: Event): Index {
    var edges := InsertAll(ix.edges, EdgesOf(e.req.payload), e.seqNo);
    var queue := match e.req.payload
      case EvidenceDeleted(id) =>
        if id == NO_ID then ix.queue
        else Enqueue(ix.queue, ImpactsOf(edges.Keys, id, e.seqNo), QueueRow(id, e.recordedAt, None))
      case _ => ix.queue;
    Index(edges, queue)
  }

  lemma InsertNone(edges: map<Edge, nat>, at: nat)
    ensures InsertAll(edges, {}, at) == edges
  {}

  lemma InsertOneMore(edges: map<Edge, nat>, ds: set<Edge>, d: Edge, at: nat)
    ensures Insert(InsertAll(edges, ds, at), d, at) == InsertAll(edges, ds + {d}, at)
  {
    var one, all := Insert(InsertAll(edges, ds, at), d, at), InsertAll(edges, ds + {d}, at);
    assert one.Keys == all.Keys;
    assert forall k :: k in one.Keys ==> one[k] == all[k];
  }

  lemma EnqueueOneMore(queue: map<Impact, QueueRow>, ks: set<Impact>, k: Impact, row: QueueRow)
    ensures Enqueue(queue, ks + {k}, row)
         == var q := Enqueue(queue, ks, row); if k in q then q else q[k := row]
  {
    var q := Enqueue(queue, ks, row);
    var one, all := if k in q then q else q[k := row], Enqueue(queue, ks + {k}, row);
    assert one.Keys == all.Keys;
    assert forall x :: x in one.Keys ==> one[x] == all[x];
  }

  // The loops of _index_dependencies.

  method AddCitations(edges: map<Edge, nat>, refs: seq<Ref>, dependent: Node, at: nat) returns (r: map<Edge, nat>)
    ensures r == InsertAll(edges, CitationEdges(refs, dependent), at)
  {
    r := edges;
    InsertNone(edges, at);
    assert CitationEdges(refs[..0], dependent) == {};
    for i := 0 to |refs|
      invariant r == InsertAll(edges, CitationEdges(refs[..i], dependent), at)
    {
      var d := Edge(Node(EvidenceKind, refs[i].evidence), dependent, Cited(refs[i].relation));
      r := Insert(r, d, at);
      InsertOneMore(edges, CitationEdges(refs[..i], dependent), d, at);
      assert refs[..i + 1] == refs[..i] + [refs[i]];
      assert CitationEdges(refs[..i + 1], dependent) == CitationEdges(refs[..i], dependent) + {d};
    }
    assert refs[..|refs|] == refs;
  }

  method AddClaimEdges(edges: map<Edge, nat>, claims: seq<Id>, dependent: Node, relation: Relation, at: nat)
    returns (r: map<Edge, nat>)
    ensures r == InsertAll(edges, ClaimEdges(claims, dependent, relation), at)
  {
    r := edges;
    InsertNone(edges, at);
    assert ClaimEdges(claims[..0], dependent, relation) == {};
    for i := 0 to |claims|
      invariant r == InsertAll(edges, ClaimEdges(claims[..i], dependent, relation), at)
    {
      var d := Edge(Node(ClaimKind, claims[i]), dependent, relation);
      r := Insert(r, d, at);
      InsertOneMore(edges, ClaimEdges(claims[..i], dependent, relation), d, at);
      assert claims[..i + 1] == claims[..i] + [claims[i]];
      assert ClaimEdges(claims[..i + 1], dependent, relation) == ClaimEdges(claims[..i], dependent, relation) + {d};
    }
    assert claims[..|claims|] == claims;
  }

  method QueueImpacts(ix: Index, evidence: Id, deletion: nat, at: int) returns (queue: map<Impact, QueueRow>)
    ensures queue == Enqueue(ix.queue, ImpactsOf(ix.edges.Keys, evidence, deletion), QueueRow(evidence, at, None))
  {
    var impacted := Traverse(ix.edges.Keys, Node(EvidenceKind, evidence));
    var row := QueueRow(evidence, at, None);
    queue := ix.queue;
    var todo := impacted;
    ghost var queued: set<Impact> := {};
    while todo != {}
      invariant todo <= impacted
      invariant queued == set n | n in impacted - todo :: Impact(deletion, n)
      invariant queue == Enqueue(ix.queue, queued, row)
      decreases todo
    {
      var n :| n in todo;
      if Impact(deletion, n) !in queue {
        queue := queue[Impact(deletion, n) := row];
      }
      EnqueueOneMore(ix.queue, queued, Impact(deletion, n), row);
      todo := todo - {n};
      queued := queued + {Impact(deletion, n)};
    }
    assert impacted - todo == impacted;
  }

  method AddCorrectionEdges(edges: map<Edge, nat>, id: Id, b: Correction, at: nat) returns (r: map<Edge, nat>)
    ensures r == InsertAll(edges, CorrectionEdges(id, b), at)
  {
    InsertNone(edges, at);
    r := edges;
    if !b.kind.UnknownTarget? {
      var kind := if b.kind.EvidenceTarget? then EvidenceKind else ClaimKind;
      var target := Edge(Node(kind, b.target), Node(CorrectionKind, id), CorrectedBy);
      var replacement := Edge(Node(kind, b.replacement), Node(CorrectionKind, id), Replacement);
      r := Insert(r, target, at);
      r := Insert(r, replacement, at);
      InsertOneMore(edges, {}, target, at);
      InsertOneMore(edges, {target}, replacement, at);
      assert {} + {target} == {target} && {target} + {replacement} == CorrectionEdges(id, b);
    }
  }

  method AddSupersession(edges: map<Edge, nat>, id: Id, successor: Id, at: nat) returns (r: map<Edge, nat>)
    ensures r == InsertAll(edges, EdgesOf(ClaimSuperseded(id, successor)), at)
  {
    var d := Edge(Node(ClaimKind, id), Node(ClaimKind, successor), SupersededBy);
    r := Insert(edges, d, at);
    InsertNone(edges, at);
    InsertOneMore(edges, {}, d, at);
    assert {} + {d} == {d};
  }

  method InsertEdges(ix: Index, p: Payload, at: nat) returns (edges: map<Edge, nat>)
    ensures edges == InsertAll(ix.edges, EdgesOf(p), at)
  {
    hide InsertAll, CitationEdges, ClaimEdges, CorrectionEdges;
    InsertNone(ix.edges, at);
    match p {
      case ClaimProposed(id, b) => edges := AddCitations(ix.edges, b.provenance, Node(ClaimKind, id), at);
      case EntityLinked(id, b) => edges := AddCitations(ix.edges, b.provenance, Node(EntityKind, id), at);
      case ClaimSuperseded(id, successor) => edges := AddSupersession(ix.edges, id, successor, at);
      case ContradictionDetected(id, b) =>
        edges := AddClaimEdges(ix.edges, b.claims, Node(ContradictionKind, id), Contradicts, at);
      case CorrectionRecorded(id, b) => edges := AddCorrectionEdges(ix.edges, id, b, at);
      case ProjectionIssued(id, b) =>
        edges := AddClaimEdges(ix.edges, b.sources, Node(ProjectionKind, id), CompiledFrom, at);
      case _ => edges := ix.edges;
    }
  }

  /** Indexing one event: its edges, or the invalidations of a deletion. */
  method IndexDependencies(ix: Index, e: Event) returns (r: Index)
    ensures r == IndexEvent(ix, e)
  {
    var edges := InsertEdges(ix, e.req.payload, e.seqNo);
    var queue := ix.queue;
    if e.req.payload.EvidenceDeleted? && e.req.payload.evidence != NO_ID {
      queue := QueueImpacts(Index(edges, ix.queue), e.req.payload.evidence, e.seqNo, e.recordedAt);
    }
    r := Index(edges, queue);
  }
}
