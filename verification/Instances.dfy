/**
  Concrete ledgers on which a plain statement about the kernel fails. Each is replayed event by event
  from the empty twin, so the states are reachable ones.
 */
module Instances {
  import opened Types
  import opened Orders
  import opened Chain
  import opened Aggregate
  import opened Fold
  import opened EventStore
  import opened Replay
  import opened ServiceLedger
  import opened Compiler

  const TWIN: Id := 1
  const SUBJECT: Id := 1

  /** A valid request for a payload; its key and event identifier are the given number. */
  function Ask(n: Id, p: Payload): Request {
    Request(n, TWIN, if IsProjectionPayload(p) then ProjectionPlane else Authoritative, p, 0, 1, 1, Given(n), V2, None, None)
  }

  /** The ledger after one more event. */
  function Record(events: seq<Event>, req: Request, at: int): seq<Event> {
    events + [Seal(req, |events| + 1, at, HeadHash(events))]
  }

  predicate StandsAt(events: seq<Event>, s: Facts) {
    FoldAll(TWIN, events).Ok? && FoldAll(TWIN, events).value.facts == s
  }

  /** A payload that is valid and accepted extends a replayed ledger by its effect. */
  lemma Extends(events: seq<Event>, s: Facts, n: Id, p: Payload, at: int)
    requires StandsAt(events, s) && n != NO_ID && ValidPayload(p, false) && Accepts(s, p)
    ensures StandsAt(Record(events, Ask(n, p), at), Effect(s, p, at))
  {
    hide ValidPayload, Accepts, Effect;
    FoldPosition(EmptyTwin(TWIN), events);
    FoldSnoc(EmptyTwin(TWIN), events, Seal(Ask(n, p), |events| + 1, at, HeadHash(events)));
  }

  lemma StandsAtStart()
    ensures StandsAt([], NO_FACTS)
  {}

  const SOURCE := Evidence(SUBJECT, 1, 1, Some(Public), 1, Validity(None, None), 0)

  /** A claim on the first piece of evidence, public and without a valid start. */
  const STATEMENT := Claim(SUBJECT, 1, 1, [Ref(1, 1, 1)], Some(Public), Validity(None, None), seq(7, _ => 0.5), 0)

  lemma StatementIsSound(s: Facts)
    requires 1 in s.evidence && s.evidence[1].group == 1
    ensures ValidPayload(ClaimProposed(1, STATEMENT), false) && ValidPayload(ClaimProposed(2, STATEMENT), false)
    ensures Grounded(s.evidence, STATEMENT.provenance) && Cites(STATEMENT.provenance, 1)
  {
    assert STATEMENT.provenance[0].evidence == 1;
  }

  // ---------------------------------------------------------------- staleness

  /** Two pieces of evidence and a claim on the first. */
  const CITED := NO_FACTS.(subject := Some(SUBJECT), evidence := map[1 := SOURCE, 2 := SOURCE],
                           claims := map[1 := Recorded(STATEMENT, 3)])

  lemma CitedIsReached() returns (events: seq<Event>)
    ensures StandsAt(events, CITED)
  {
    StandsAtStart();
    var s1 := NO_FACTS.(subject := Some(SUBJECT), evidence := map[1 := SOURCE]);
    Extends([], NO_FACTS, 1, EvidenceIngested(1, SOURCE), 1);
    assert Effect(NO_FACTS, EvidenceIngested(1, SOURCE), 1) == s1;
    var e1 := Record([], Ask(1, EvidenceIngested(1, SOURCE)), 1);
    var s2 := s1.(evidence := map[1 := SOURCE, 2 := SOURCE]);
    Extends(e1, s1, 2, EvidenceIngested(2, SOURCE), 2);
    assert Effect(s1, EvidenceIngested(2, SOURCE), 2) == s2;
    var e2 := Record(e1, Ask(2, EvidenceIngested(2, SOURCE)), 2);
    StatementIsSound(s2);
    Extends(e2, s2, 3, ClaimProposed(1, STATEMENT), 3);
    events := Record(e2, Ask(3, ClaimProposed(1, STATEMENT)), 3);
    assert Effect(s2, ClaimProposed(1, STATEMENT), 3) == CITED;
  }

  /** The first piece of evidence has been superseded by the second, which made the claim stale. */
  const CORRECTION := Correction(SUBJECT, EvidenceTarget, 1, 2, 1, 1)
  const CORRECTED := CITED.(corrections := map[1 := Recorded(CORRECTION, 4)], supersededEvidence := {1}, staleClaims := {1})

  lemma CorrectedIsReached() returns (events: seq<Event>)
    ensures StandsAt(events, CORRECTED)
  {
    var before := CitedIsReached();
    var p := CorrectionRecorded(1, CORRECTION);
    StatementIsSound(CITED);
    Extends(before, CITED, 4, p, 4);
    assert ClaimsCiting(CITED.claims, 1) == {1};
    assert LinksCiting(CITED.links, 1) == {};
    assert ProjectionsDrawingOn(CITED.projections, {1}) == {};
    assert Effect(CITED, p, 4) == CORRECTED;
    events := Record(before, Ask(4, p), 4);
  }

  /** On a ledger that replays, a claim proposed on superseded evidence is accepted and not marked stale. */
  lemma SupersededEvidenceCanBeCited() returns (events: seq<Event>)
    ensures FoldAll(TWIN, events).Ok?
    ensures var s := FoldAll(TWIN, events).value.facts;
            && 2 in s.claims && 2 !in s.staleClaims && Cites(s.claims[2].body.provenance, 1)
            && 1 in s.evidence && 1 in s.supersededEvidence
  {
    var before := CorrectedIsReached();
    StatementIsSound(CORRECTED);
    Extends(before, CORRECTED, 5, ClaimProposed(2, STATEMENT), 5);
    events := Record(before, Ask(5, ClaimProposed(2, STATEMENT)), 5);
  }

  /** On a ledger that replays, a projection issued over a stale claim is accepted and not marked stale. */
  lemma StaleClaimCanBeProjected() returns (events: seq<Event>)
    ensures FoldAll(TWIN, events).Ok?
    ensures var s := FoldAll(TWIN, events).value.facts;
            1 in s.projections && 1 !in s.staleProjections && DrawsOn(s.projections[1], s.staleClaims)
  {
    var before := CorrectedIsReached();
    var p := ProjectionIssued(1, Projection(1, 1, 1, [1]));
    Extends(before, CORRECTED, 5, p, 5);
    events := Record(before, Ask(5, p), 5);
    assert 1 in Projection(1, 1, 1, [1]).sources;
  }

  // ---------------------------------------------------------------- valid time

  /** The source, valid only from time 10 on. */
  const LATE_SOURCE := SOURCE.(validity := Validity(Some(10), None))

  /** On a ledger that replays, selecting what is valid at time 5 keeps a live claim and drops its evidence. */
  lemma SelectionUngroundsAClaim() returns (events: seq<Event>)
    ensures FoldAll(TWIN, events).Ok?
    ensures var t := SelectValid(FoldAll(TWIN, events).value.facts, 5);
            1 in t.claims && 1 !in t.staleClaims && Cites(t.claims[1].body.provenance, 1) && 1 !in t.evidence
  {
    StandsAtStart();
    var s1 := NO_FACTS.(subject := Some(SUBJECT), evidence := map[1 := LATE_SOURCE]);
    Extends([], NO_FACTS, 1, EvidenceIngested(1, LATE_SOURCE), 1);
    assert Effect(NO_FACTS, EvidenceIngested(1, LATE_SOURCE), 1) == s1;
    var e1 := Record([], Ask(1, EvidenceIngested(1, LATE_SOURCE)), 1);
    StatementIsSound(s1);
    Extends(e1, s1, 2, ClaimProposed(1, STATEMENT), 2);
    events := Record(e1, Ask(2, ClaimProposed(1, STATEMENT)), 2);
  }

  // ---------------------------------------------------------------- two processes

  lemma EmptyDbReplays()
    ensures AllReplay(EMPTY_DB)
  {}

  lemma FirstEvidenceCommits()
    ensures var p := EvidenceIngested(1, SOURCE);
            ServiceAppend(EMPTY_DB, Ask(1, p), 0, 0, 1, 1)
            == (CommitEvent(EMPTY_DB, NextEvent(EMPTY_DB, Ask(1, p), 1)), Ok(NextEvent(EMPTY_DB, Ask(1, p), 1)))
    ensures ValidEvent(Envelope(Ask(2, EvidenceIngested(1, SOURCE)), 0))
  {
    assert FoldAll(TWIN, []) == Ok(EmptyTwin(TWIN));
  }

  /**
    One process reads the empty database. Before its append reaches the store, another one records
    evidence; the first one, which expects a head of 1, then records the same evidence under a second
    key, unpreviewed, and the ledger no longer replays.
   */
  lemma ExpectingAheadBreaksReplay()
    ensures var p := EvidenceIngested(1, SOURCE);
            var later := ServiceAppend(EMPTY_DB, Ask(1, p), 0, 0, 1, 1).0;
            var after := AppendBeside(EMPTY_DB, FoldAll(TWIN, []), later, Ask(2, p), 0, 1, 2, 2).0;
            |Ledger(after, TWIN)| == 2 && FoldAll(TWIN, Ledger(after, TWIN)).Err?
  {
    hide FoldAll, StoreSound, AllReplay;
    var p := EvidenceIngested(1, SOURCE);
    var e := NextEvent(EMPTY_DB, Ask(1, p), 1);
    EmptyDbIsSound();
    EmptyDbReplays();
    ServiceKeepsReplayable(EMPTY_DB, Ask(1, p), 0, 0, 1, 1);
    FirstEvidenceCommits();
    ExpectingAheadCanBreakReplay(EMPTY_DB, FoldAll(TWIN, []), ServiceAppend(EMPTY_DB, Ask(1, p), 0, 0, 1, 1).0, e, Ask(2, p), 2, 2);
  }

  // ---------------------------------------------------------------- disclosure

  /** Evidence, and a claim on it that is recorded at time 100. */
  const PROPOSED := NO_FACTS.(subject := Some(SUBJECT), evidence := map[1 := SOURCE],
                              claims := map[1 := Recorded(STATEMENT, 100)])

  lemma ProposedIsReached() returns (events: seq<Event>)
    ensures StandsAt(events, PROPOSED) && |events| == 2
    ensures forall e :: e in events ==> e.recordedAt <= 200
  {
    StandsAtStart();
    var s1 := NO_FACTS.(subject := Some(SUBJECT), evidence := map[1 := SOURCE]);
    Extends([], NO_FACTS, 1, EvidenceIngested(1, SOURCE), 1);
    assert Effect(NO_FACTS, EvidenceIngested(1, SOURCE), 1) == s1;
    var e1 := Record([], Ask(1, EvidenceIngested(1, SOURCE)), 1);
    StatementIsSound(s1);
    Extends(e1, s1, 2, ClaimProposed(1, STATEMENT), 100);
    events := Record(e1, Ask(2, ClaimProposed(1, STATEMENT)), 100);
    assert Effect(s1, ClaimProposed(1, STATEMENT), 100) == PROPOSED;
  }

  /** A request for the kernel as it was known at time 200, when every event here was known. */
  const REQUEST := ProjectionRequest(1, TWIN, SUBJECT, 1, 1, Restricted, 200, 200)
  const KERNEL_ONLY := Decision(true, [], {KERNEL})

  /** The accepted claim is not shown, and it is one that the compiler cannot read. */
  lemma HiddenClaim()
    ensures var s, t := Effect(PROPOSED, ClaimAccepted(1), 101), Effect(PROPOSED, OtherEvent(1), 101);
            && s.subject == t.subject == Some(SUBJECT) && s.degraded == t.degraded
            && RaisesOnAccepted(s, REQUEST) && !RaisesOnAccepted(t, REQUEST)
            && VisibleAccepted(s, REQUEST) == VisibleAccepted(t, REQUEST) == map[]
            && VisibleContested(s, REQUEST) == VisibleContested(t, REQUEST) == map[]
  {
    hide Disclose;
    var s := Effect(PROPOSED, ClaimAccepted(1), 101);
    assert 1 in s.accepted && 1 !in Withdrawn(s) && Unreadable(s.claims[1], REQUEST);
  }

  lemma SortedOne()
    ensures Sorted({KERNEL}) == [KERNEL]
  {
    assert Elements([KERNEL]) == {KERNEL};
    AscendingIsUnique(Sorted({KERNEL}), [KERNEL]);
  }

  /** A request for the kernel alone is answered unless the compiler raises on an accepted claim. */
  lemma Answers(s: Twin, consent: Consent, now: int)
    requires s.twinId == TWIN && s.facts.subject == Some(SUBJECT)
    ensures var r := CompileProjection(s, REQUEST, Some(consent), KERNEL_ONLY, now);
            if RaisesOnAccepted(s.facts, REQUEST) then r == Err(InvalidValue) else r.Ok?
  {
    hide LensOf, CompileFields, RevealedFields, RaisesOnAccepted, RaisesOnContested;
    var scope, fields := ScopeOf(REQUEST), Sorted({KERNEL});
    SortedOne();
    ShownIffVisible(s.facts, REQUEST);
    FieldsAreRevealed(s, fields, scope);
    RevealedFieldsFail(LensOf(s.facts, scope), s.seqNo, fields);
  }

  lemma {:induction false} AllKnown(events: seq<Event>, asOf: int)
    requires forall e :: e in events ==> e.recordedAt <= asOf
    ensures KnownPrefix(events, Some(asOf)) == events
  {
    if events != [] {
      assert events[0] in events && forall e :: e in events[1..] ==> e in events;
      AllKnown(events[1..], asOf);
      assert [events[0]] + events[1..] == events;
    }
  }

  /**
    Plain non-interference fails on states that the service compiles from. One ledger accepts the claim
    that has no valid start, another records something else at the same place. Such a claim is shown at
    no time, so both show the request nothing; yet the first makes the compiler raise and the second is
    answered.
   */
  lemma {:induction false} HiddenClaimCanInterfere(consent: Consent, now: int) returns (a: seq<Event>, b: seq<Event>)
    ensures KnownPrefix(a, Some(REQUEST.knownAt)) == a && KnownPrefix(b, Some(REQUEST.knownAt)) == b
    ensures FoldAll(TWIN, a).Ok? && FoldAll(TWIN, b).Ok?
    ensures var s, t := FoldAll(TWIN, a).value, FoldAll(TWIN, b).value;
            && s.twinId == t.twinId && s.seqNo == t.seqNo && s.facts.subject == t.facts.subject
            && s.facts.degraded == t.facts.degraded
            && VisibleAccepted(s.facts, REQUEST) == VisibleAccepted(t.facts, REQUEST) == map[]
            && VisibleContested(s.facts, REQUEST) == VisibleContested(t.facts, REQUEST) == map[]
            && CompileProjection(s, REQUEST, Some(consent), KERNEL_ONLY, now) == Err(InvalidValue)
            && CompileProjection(t, REQUEST, Some(consent), KERNEL_ONLY, now).Ok?
  {
    hide VisibleAccepted, VisibleContested, RaisesOnAccepted, CompileProjection;
    var before := ProposedIsReached();
    Extends(before, PROPOSED, 3, ClaimAccepted(1), 101);
    Extends(before, PROPOSED, 3, OtherEvent(1), 101);
    a, b := Record(before, Ask(3, ClaimAccepted(1)), 101), Record(before, Ask(3, OtherEvent(1)), 101);
    FoldPosition(EmptyTwin(TWIN), a);
    FoldPosition(EmptyTwin(TWIN), b);
    var s, t := FoldAll(TWIN, a).value, FoldAll(TWIN, b).value;
    Answers(s, consent, now);
    Answers(t, consent, now);
    HiddenClaim();
    AllKnown(a, REQUEST.knownAt);
    AllKnown(b, REQUEST.knownAt);
  }
}
