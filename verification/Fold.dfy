/**
  Replaying a ledger: the fold of the transition function over verified, gap-free events, and what
  every state it can reach keeps.
 */
module Fold {
  import opened Types
  import opened Chain
  import opened Aggregate

  /** One turn of the replay loop. */
  function ReplayStep(s: Twin, e: Event): Result<Twin> {
    if e.seqNo != s.seqNo + 1 || !Verifies(e, s.lastHash) then Err(IntegrityError) else
      var a := Apply(s, e);
      if a.error.Some? then Err(a.error.value) else Ok(a.state)
  }

  function FoldFrom(s: Twin, events: seq<Event>): Result<Twin> {
    if events == [] then Ok(s) else
      match FoldFrom(s, events[..|events| - 1])
      case Err(x) => Err(x)
      case Ok(t) => ReplayStep(t, events[|events| - 1])
  }

  /** The state of a twin after its whole ledger. */
  function FoldAll(twinId: Id, events: seq<Event>): Result<Twin> {
    FoldFrom(EmptyTwin(twinId), events)
  }

  lemma {:induction false} FoldSplit(s: Twin, a: seq<Event>, b: seq<Event>)
    ensures FoldFrom(s, a + b) == match FoldFrom(s, a) case Err(x) => Err(x) case Ok(t) => FoldFrom(t, b)
  {
    if b == [] {
      assert a + b == a;
    } else {
      var front := b[..|b| - 1];
      FoldSplit(s, a, front);
      assert (a + b)[..|a + b| - 1] == a + front;
    }
  }

  lemma FoldSnoc(s: Twin, events: seq<Event>, e: Event)
    requires FoldFrom(s, events).Ok?
    ensures FoldFrom(s, events + [e]) == ReplayStep(FoldFrom(s, events).value, e)
  {
    assert (events + [e])[..|events|] == events;
  }

  lemma FoldCons(s: Twin, events: seq<Event>)
    requires events != []
    ensures FoldFrom(s, events) == match ReplayStep(s, events[0]) case Err(x) => Err(x) case Ok(t) => FoldFrom(t, events[1..])
  {
    hide ReplayStep;
    FoldSplit(s, [events[0]], events[1..]);
    assert [events[0]] + events[1..] == events;
    assert FoldFrom(s, []) == Ok(s) && [events[0]][..0] == [];
  }

  /** If a ledger replays, so does every prefix of it. */
  lemma PrefixReplays(s: Twin, events: seq<Event>, n: nat)
    requires FoldFrom(s, events).Ok? && n <= |events|
    ensures FoldFrom(s, events[..n]).Ok?
  {
    FoldSplit(s, events[..n], events[n..]);
    assert events[..n] + events[n..] == events;
  }

  /** The state knows exactly how far it has read: one sequence number and one hash per event. */
  lemma {:induction false} FoldPosition(s: Twin, events: seq<Event>)
    requires FoldFrom(s, events).Ok?
    ensures var t := FoldFrom(s, events).value;
            && t.twinId == s.twinId && t.seqNo == s.seqNo + |events|
            && t.lastHash == if events == [] then s.lastHash else HeadHash(events)
  {
    if events != [] {
      PrefixReplays(s, events, |events| - 1);
      FoldPosition(s, events[..|events| - 1]);
    }
  }

  lemma {:induction false} FoldCoherent(s: Twin, events: seq<Event>)
    requires FoldFrom(s, events).Ok? && Coherent(s.facts)
    ensures Coherent(FoldFrom(s, events).value.facts)
  {
    if events != [] {
      var front := events[..|events| - 1];
      FoldCoherent(s, front);
      CoherenceKept(FoldFrom(s, front).value, events[|events| - 1]);
    }
  }

  /**
    Every state that a ledger can reach keeps the review states apart, grounds what is not stale in
    present evidence, and resolves exactly what is adjudicated.
   */
  lemma ReachableIsCoherent(twinId: Id, events: seq<Event>)
    requires FoldAll(twinId, events).Ok?
    ensures Coherent(FoldAll(twinId, events).value.facts)
  {
    NoFactsIsCoherent();
    FoldCoherent(EmptyTwin(twinId), events);
  }

  /** A ledger that replays is a hash chain; replay re-checks every link. */
  lemma {:induction false} ReplayChecksChain(twinId: Id, events: seq<Event>)
    requires FoldAll(twinId, events).Ok?
    ensures IsChain(events)
  {
    if events != [] {
      var n := |events| - 1;
      PrefixReplays(EmptyTwin(twinId), events, n);
      ReplayChecksChain(twinId, events[..n]);
      FoldPosition(EmptyTwin(twinId), events[..n]);
      assert events[..n] + [events[n]] == events;
      LinkExtendsChain(events[..n], events[n]);
    }
  }

  /** A twin that is bound to a subject stays bound to it. */
  lemma BindingStays(s: Twin, e: Event)
    requires ReplayStep(s, e).Ok? && s.facts.subject.Some?
    ensures ReplayStep(s, e).value.facts.subject == s.facts.subject
  {
    hide Accepts, Effect, ValidEvent;
    EffectKeepsSubject(s.facts, e.req.payload, e.recordedAt);
  }

  lemma {:induction false} SubjectStays(s: Twin, events: seq<Event>)
    requires FoldFrom(s, events).Ok? && s.facts.subject.Some?
    ensures FoldFrom(s, events).value.facts.subject == s.facts.subject
  {
    hide ReplayStep;
    if events != [] {
      SubjectStays(s, events[..|events| - 1]);
      BindingStays(FoldFrom(s, events[..|events| - 1]).value, events[|events| - 1]);
    }
  }
}
