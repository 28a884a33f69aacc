/**
  Sealing and verifying events, and the hash chain that one twin's ledger forms.
  The fold, the store and the subscription protocol all rest on the predicate IsChain.
 */
module Chain {
  import opened Types

  /** The hash material: everything but the hash itself, and not the role of a version-1 event. */
  function HashMaterial(req: Request, seqNo: nat, recordedAt: int, previous: Hash): Material {
    Material(req.(role := NO_ID), if req.version.V1? then None else Some(req.role), seqNo, recordedAt, previous)
  }

  function Seal(req: Request, seqNo: nat, recordedAt: int, previous: Hash): Event {
    Event(req, seqNo, recordedAt, previous, HashOf(HashMaterial(req, seqNo, recordedAt, previous)))
  }

  /** The two checks of EventEnvelope.verify. */
  predicate Verifies(e: Event, expectedPrevious: Hash) {
    && e.previous == expectedPrevious
    && e.hash == HashOf(HashMaterial(e.req, e.seqNo, e.recordedAt, e.previous))
  }

  /** The hash of the last event, or the empty hash of an empty ledger. */
  function HeadHash(events: seq<Event>): Hash {
    if events == [] then NoHash else events[|events| - 1].hash
  }

  /** The i-th event has sequence number i + 1 and verifies against the one before it. */
  predicate LinkHolds(events: seq<Event>, i: nat)
    requires i < |events|
  {
    events[i].seqNo == i + 1 && Verifies(events[i], if i == 0 then NoHash else events[i - 1].hash)
  }

  predicate IsChain(events: seq<Event>) {
    forall i :: 0 <= i < |events| ==> LinkHolds(events, i)
  }

  /** Sequence numbers count from 1 without a gap. */
  predicate Numbered(events: seq<Event>) {
    forall i :: 0 <= i < |events| ==> events[i].seqNo == i + 1
  }

  lemma ChainIsNumbered(events: seq<Event>)
    requires IsChain(events)
    ensures Numbered(events)
  {
    forall i | 0 <= i < |events|
      ensures events[i].seqNo == i + 1
    {
      assert LinkHolds(events, i);
    }
  }

  lemma PrefixIsChain(events: seq<Event>, n: nat)
    requires IsChain(events) && n <= |events|
    ensures IsChain(events[..n])
  {
    forall i | 0 <= i < n
      ensures LinkHolds(events[..n], i)
    {
      assert LinkHolds(events, i);
    }
  }

  lemma LinkExtendsChain(events: seq<Event>, e: Event)
    requires IsChain(events) && e.seqNo == |events| + 1 && Verifies(e, HeadHash(events))
    ensures IsChain(events + [e])
  {
    var longer := events + [e];
    forall i | 0 <= i < |longer|
      ensures LinkHolds(longer, i)
    {
      if i < |events| {
        assert LinkHolds(events, i);
      }
    }
  }

  lemma SealExtendsChain(events: seq<Event>, req: Request, recordedAt: int)
    requires IsChain(events)
    ensures IsChain(events + [Seal(req, |events| + 1, recordedAt, HeadHash(events))])
  {
    LinkExtendsChain(events, Seal(req, |events| + 1, recordedAt, HeadHash(events)));
  }

  /** The store's audit of one twin: the loop of verify_chain. */
  method VerifyChain(events: seq<Event>) returns (r: Result<bool>)
    ensures r == if IsChain(events) then Ok(true) else Err(IntegrityError)
  {
    var previous := NoHash;
    var expected := 1;
    for i := 0 to |events|
      invariant expected == i + 1
      invariant previous == if i == 0 then NoHash else events[i - 1].hash
      invariant forall k :: 0 <= k < i ==> LinkHolds(events, k)
    {
      if events[i].seqNo != expected || !Verifies(events[i], previous) {
        assert !LinkHolds(events, i);
        return Err(IntegrityError);
      }
      previous := events[i].hash;
      expected := expected + 1;
    }
    return Ok(true);
  }

  /** What the hash of an event pins down: the whole event, but not the role of a version-1 event. */
  predicate SameUpToV1Role(a: Event, b: Event) {
    && a.(req := a.req.(role := NO_ID)) == b.(req := b.req.(role := NO_ID))
    && (!a.req.version.V1? ==> a == b)
  }

  lemma HashDeterminesEvent(a: Event, b: Event)
    requires Verifies(a, a.previous) && Verifies(b, b.previous) && a.hash == b.hash
    ensures SameUpToV1Role(a, b) && a.seqNo == b.seqNo && a.previous == b.previous
  {
    var m, n := HashMaterial(a.req, a.seqNo, a.recordedAt, a.previous), HashMaterial(b.req, b.seqNo, b.recordedAt, b.previous);
    assert m == HashOf(m).material == HashOf(n).material == n;
    assert a.req.(role := NO_ID) == m.req == n.req == b.req.(role := NO_ID);
    assert a.req.version == m.req.version == n.req.version == b.req.version;
    if !a.req.version.V1? {
      assert m.role == Some(a.req.role) && n.role == Some(b.req.role);
    }
  }

  /** A head hash commits to the whole history: two chains with the same head are the same chain. */
  lemma {:induction false} HeadHashDeterminesChain(a: seq<Event>, b: seq<Event>)
    requires IsChain(a) && IsChain(b) && HeadHash(a) == HeadHash(b)
    ensures |a| == |b|
    ensures forall i :: 0 <= i < |a| ==> SameUpToV1Role(a[i], b[i])
  {
    hide SameUpToV1Role;
    var m, n := |a| - 1, |b| - 1;
    assert a != [] ==> LinkHolds(a, m);
    assert b != [] ==> LinkHolds(b, n);
    if a != [] && b != [] {
      HashDeterminesEvent(a[m], b[n]);
      PrefixIsChain(a, m);
      PrefixIsChain(b, n);
      HeadHashDeterminesChain(a[..m], b[..n]);
      assert forall i :: 0 <= i < m ==> a[i] == a[..m][i] && b[i] == b[..m][i];
    }
  }

  /** The exception is real: a version-1 event can change its role under the same hash. */
  lemma V1RoleIsNotCovered(req: Request, role: Id, recordedAt: int)
    requires req.version.V1? && req.role != role
    ensures Seal(req, 1, recordedAt, NoHash) != Seal(req.(role := role), 1, recordedAt, NoHash)
    ensures Seal(req, 1, recordedAt, NoHash).hash == Seal(req.(role := role), 1, recordedAt, NoHash).hash
  {
    var other := req.(role := role);
    assert Seal(req, 1, recordedAt, NoHash).req == req;
    assert Seal(other, 1, recordedAt, NoHash).req == other;
    assert req.(role := NO_ID) == other.(role := NO_ID);
  }
}
