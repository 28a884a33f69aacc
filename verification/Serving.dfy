/**
  A projection as the service answers it: compiled from the state as of the requested recorded time.
  It depends on the events that were known by then and on nothing that was recorded later.
 */
module Serving {
  import opened Types
  import opened Aggregate
  import opened Fold
  import opened EventStore
  import opened Replay
  import opened Compiler

  /** The answer to a request; the audit event that the service appends afterwards is not part of it. */
  function Served(db: Db, request: ProjectionRequest, consent: Option<Consent>, decision: Decision, expected: int, now: int):
    Result<(Document, Receipt)>
  {
    if |Ledger(db, request.twin)| != expected then Err(ConcurrencyConflict) else
      match Rebuild(db, request.twin, true, None, Some(request.knownAt))
      case Err(x) => Err(x)
      case Ok(s) =>
        if s.facts.subject != Some(request.subject) then Err(InvariantViolation)
        else CompileProjection(s, request, consent, decision, now)
  }

  /** What was known by a time stays what it was, exactly if it was not all or the next event came too late. */
  lemma {:induction false} KnownStays(events: seq<Event>, more: seq<Event>, asOf: int)
    requires events < more
    ensures KnownPrefix(more, Some(asOf)) == KnownPrefix(events, Some(asOf))
       <==> KnownPrefix(events, Some(asOf)) != events || more[|events|].recordedAt > asOf
  {
    if events != [] && events[0].recordedAt <= asOf {
      KnownStays(events[1..], more[1..], asOf);
      assert more[1..][|events| - 1] == more[|events|];
      assert [events[0]] + events[1..] == events;
    }
  }

  /** Two stores in which the same was known by the requested time give the same answer at their heads. */
  lemma AnswerDependsOnKnownEvents(db: Db, later: Db, request: ProjectionRequest, consent: Option<Consent>,
                                   decision: Decision, now: int)
    requires StoreSound(db) && StoreSound(later)
    requires KnownPrefix(Ledger(db, request.twin), Some(request.knownAt))
          == KnownPrefix(Ledger(later, request.twin), Some(request.knownAt))
    ensures Served(db, request, consent, decision, |Ledger(db, request.twin)|, now)
         == Served(later, request, consent, decision, |Ledger(later, request.twin)|, now)
  {
    hide StoreSound, Rebuild, KnownPrefix, FoldAll, CompileProjection;
    var events, more := Ledger(db, request.twin), Ledger(later, request.twin);
    RecordedTimeReplay(db, request.twin, true, None, request.knownAt);
    RecordedTimeReplay(later, request.twin, true, None, request.knownAt);
    assert events[..|events|] == events && more[..|more|] == more;
  }

  /** An accepted payload records claims at the time of its event, and changes none that is there. */
  lemma ClaimsAreRecordedNow(s: Facts, p: Payload, at: int, c: Id)
    requires Accepts(s, p) && c in Effect(s, p, at).claims
    ensures (c in s.claims && Effect(s, p, at).claims[c] == s.claims[c]) || Effect(s, p, at).claims[c].recordedAt == at
  {
    hide Grounded, AllIn, Without, ClaimsCiting, LinksCiting, ProjectionsDrawingOn;
  }

  lemma StepIsEffect(twin: Id, events: seq<Event>)
    requires events != [] && FoldAll(twin, events).Ok?
    ensures var n := |events| - 1;
            && FoldAll(twin, events[..n]).Ok?
            && Accepts(FoldAll(twin, events[..n]).value.facts, events[n].req.payload)
            && FoldAll(twin, events).value.facts
               == Effect(FoldAll(twin, events[..n]).value.facts, events[n].req.payload, events[n].recordedAt)
  {
    hide Accepts, Effect, LeftBehind, ValidEvent;
    PrefixReplays(EmptyTwin(twin), events, |events| - 1);
  }

  lemma {:induction false} ClaimsAreRecordedBy(twin: Id, events: seq<Event>, asOf: int)
    requires FoldAll(twin, events).Ok? && forall e :: e in events ==> e.recordedAt <= asOf
    ensures var s := FoldAll(twin, events).value.facts; forall c :: c in s.claims ==> s.claims[c].recordedAt <= asOf
  {
    if events != [] {
      var n := |events| - 1;
      PrefixReplays(EmptyTwin(twin), events, n);
      assert forall e :: e in events[..n] ==> e in events;
      ClaimsAreRecordedBy(twin, events[..n], asOf);
      StepIsEffect(twin, events);
      var s := FoldAll(twin, events[..n]).value.facts;
      forall c | c in FoldAll(twin, events).value.facts.claims
        ensures FoldAll(twin, events).value.facts.claims[c].recordedAt <= asOf
      {
        ClaimsAreRecordedNow(s, events[n].req.payload, events[n].recordedAt, c);
      }
    }
  }

  /**
    Every claim in the state that an answer is compiled from had been recorded by the requested time.
    So the recorded-time test of the compiler hides nothing there; what hides a claim from an answer of
    the service is its sensitivity, its valid time, or its review state.
   */
  lemma ServedClaimsAreKnown(db: Db, request: ProjectionRequest)
    requires StoreSound(db)
    ensures var r := Rebuild(db, request.twin, true, None, Some(request.knownAt));
            r.Ok? ==> forall c :: c in r.value.facts.claims ==> r.value.facts.claims[c].recordedAt <= request.knownAt
  {
    hide StoreSound, Rebuild, KnownPrefix, FoldFrom;
    var events := Ledger(db, request.twin);
    RecordedTimeReplay(db, request.twin, true, None, request.knownAt);
    assert events[..|events|] == events;
    KnownPrefixIsLongest(events, request.knownAt);
    if FoldAll(request.twin, KnownPrefix(events, Some(request.knownAt))).Ok? {
      ClaimsAreRecordedBy(request.twin, KnownPrefix(events, Some(request.knownAt)), request.knownAt);
    }
  }
}
