/**
  What the application service adds to the store: an event reaches the ledger only after its
  transition succeeded on a preview. So every ledger the service writes can be replayed.
 */
module ServiceLedger {
  import opened Types
  import opened Chain
  import opened Aggregate
  import opened Fold
  import opened EventStore
  import opened LineageHistory

  /** A request in the envelope that the service validates; the caller may have set any sequence number. */
  function Envelope(req: Request, given: nat): Event {
    Event(req, given, 0, NoHash, NoHash)
  }

  /** The verdict of the preview: apply the sealed candidate to the state at the head. */
  ghost function Preview(db: Db, req: Request, previewAt: int): Option<Error> {
    match FoldAll(req.twin, Ledger(db, req.twin))
    case Err(e) => Some(e)
    case Ok(s) => Apply(s, NextEvent(db, req, previewAt)).error
  }

  /** The states that a process holds in memory, by twin. */
  type Cache = map<Id, Twin>

  /** All that a process checks of a state before it uses it: number and hash are those of the head. */
  predicate StandsAtHead(s: Twin, head: nat, hash: Hash) {
    s.seqNo == head && s.lastHash == hash
  }

  /** The state at the head as a process sees it: the one it holds if that passes, otherwise a replay. */
  function Latest(held: Cache, twin: Id, events: seq<Event>): Result<Twin> {
    if twin in held && StandsAtHead(held[twin], |events|, HeadHash(events)) then Ok(held[twin])
    else FoldAll(twin, events)
  }

  /** What reading the state at the head leaves in memory, before evictions. */
  function Refreshed(held: Cache, twin: Id, events: seq<Event>): Cache {
    if twin in held && StandsAtHead(held[twin], |events|, HeadHash(events)) then held
    else
      match FoldAll(twin, events)
      case Ok(s) => held[twin := s]
      case Err(_) => held - {twin}
  }

  /** Evictions may drop any state at any time. */
  predicate Within(held: Cache, before: Cache) {
    forall t :: t in held ==> t in before && held[t] == before[t]
  }

  datatype Verdict = Refused(error: Error) | Unpreviewed | Previewed(state: Twin)

  /** Whether the state still stands at the head that was read before it, and the transition on a copy of it. */
  function Try(head: nat, hash: Hash, latest: Result<Twin>, req: Request, previewAt: int): Verdict {
    match latest
    case Err(x) => Refused(x)
    case Ok(s) =>
      if !StandsAtHead(s, head, hash) then Refused(ConcurrencyConflict) else
        match Apply(s, Seal(req, head + 1, previewAt, hash)).error
        case Some(x) => Refused(x)
        case None => Previewed(s)
  }

  /** The checks before a write: the envelope, and the transition if the head is the expected one. */
  function Judge(head: nat, hash: Hash, latest: Result<Twin>, req: Request, given: nat, expected: int, previewAt: int): Verdict
  {
    if !ValidEvent(Envelope(req, given)) || req.plane.Simulation? then Refused(InvariantViolation)
    else if head != expected then Unpreviewed
    else Try(head, hash, latest, req, previewAt)
  }

  /** What the checks leave in memory; only the last of them looks at the state. */
  function Looked(held: Cache, events: seq<Event>, head: nat, req: Request, given: nat, expected: int): Cache {
    if ValidEvent(Envelope(req, given)) && !req.plane.Simulation? && head == expected
    then Refreshed(held, req.twin, events)
    else held
  }

  /** What the answer of the store leaves in memory: the admitted state is advanced in place, or dropped. */
  function Kept(held: Cache, twin: Id, head: nat, current: Option<Twin>, answer: Result<Event>): Cache {
    if answer.Err? || answer.value.seqNo <= head then held
    else if current.None? then held - {twin}
    else
      var a := Apply(current.value, answer.value);
      if a.error.Some? then held - {twin} else held[twin := a.state]
  }

  /** An eviction before an answer is an eviction after it. */
  lemma KeptWithin(held: Cache, before: Cache, after: Cache, twin: Id, head: nat, current: Option<Twin>, answer: Result<Event>)
    requires Within(held, before) && Within(after, Kept(held, twin, head, current, answer))
    ensures Within(after, Kept(before, twin, head, current, answer))
  {
    hide Apply;
  }

  /**
    One service append in its steps: the head is read from `db`; `latest` is what the process then
    sees as the state at the head, of which only number and hash are checked; and the write meets the
    store as it is by then, with whatever other processes have written in between.
   */
  ghost function AppendBeside(db: Db, latest: Result<Twin>, later: Db, req: Request, given: nat, expected: int,
                              previewAt: int, now: int): (Db, Result<Event>)
  {
    var events := Ledger(db, req.twin);
    match Judge(|events|, HeadHash(events), latest, req, given, expected, previewAt)
    case Refused(x) => (later, Err(x))
    case _ => AppendTo(later, req, expected, now)
  }

  /** The same with nobody in between, by a process that holds the given states. */
  ghost function ProcessAppend(db: Db, held: Cache, req: Request, given: nat, expected: int, previewAt: int, now: int):
    (Db, Result<Event>)
  {
    AppendBeside(db, Latest(held, req.twin, Ledger(db, req.twin)), db, req, given, expected, previewAt, now)
  }

  /** What such an append leaves in memory, before evictions. */
  ghost function HeldAfter(db: Db, held: Cache, req: Request, given: nat, expected: int, previewAt: int, now: int): Cache {
    var events := Ledger(db, req.twin);
    var looked, answer := Looked(held, events, |events|, req, given, expected), AppendTo(db, req, expected, now).1;
    match Judge(|events|, HeadHash(events), Latest(held, req.twin, events), req, given, expected, previewAt)
    case Refused(_) => looked
    case Unpreviewed => Kept(looked, req.twin, |events|, None, answer)
    case Previewed(s) => Kept(looked, req.twin, |events|, Some(s), answer)
  }

  /** The same with nobody in between and the true state at hand, as it is within one process. */
  ghost function ServiceAppend(db: Db, req: Request, given: nat, expected: int, previewAt: int, now: int): (Db, Result<Event>) {
    if !ValidEvent(Envelope(req, given)) || req.plane.Simulation? then (db, Err(InvariantViolation))
    else if |Ledger(db, req.twin)| == expected && Preview(db, req, previewAt).Some? then
      (db, Err(Preview(db, req, previewAt).value))
    else AppendTo(db, req, expected, now)
  }

  /** One process is the special case of the many. */
  lemma SoleProcess(db: Db, req: Request, given: nat, expected: int, previewAt: int, now: int)
    ensures AppendBeside(db, FoldAll(req.twin, Ledger(db, req.twin)), db, req, given, expected, previewAt, now)
         == ServiceAppend(db, req, given, expected, previewAt, now)
  {
    hide Apply, ValidEvent, AppendTo;
    var events := Ledger(db, req.twin);
    if FoldAll(req.twin, events).Ok? {
      FoldPosition(EmptyTwin(req.twin), events);
    }
  }

  ghost predicate AllReplay(db: Db) {
    forall t :: t in db.ledgers ==> FoldAll(t, db.ledgers[t]).Ok?
  }

  lemma LedgerReplays(db: Db, twin: Id)
    requires AllReplay(db)
    ensures FoldAll(twin, Ledger(db, twin)).Ok?
  {}

  /** Appending without a preview can only repeat an earlier answer or be refused. */
  lemma UnpreviewedChangesNothing(db: Db, req: Request, expected: int, now: int)
    requires |Ledger(db, req.twin)| != expected
    ensures var (after, r) := AppendTo(db, req, expected, now);
            && after == db
            && (r.Ok? ==> r.value in Ledger(db, req.twin) && r.value.req.key == req.key)
            && (r.Err? ==> r.error.ConcurrencyConflict? || r.error.InvariantViolation?)
  {}

  /** The event that is persisted succeeds where its preview did, though time and hash differ. */
  lemma PersistedFollowsPreview(db: Db, req: Request, previewAt: int, now: int)
    requires StoreSound(db) && FoldAll(req.twin, Ledger(db, req.twin)).Ok?
    requires Preview(db, req, previewAt).None?
    ensures var s := FoldAll(req.twin, Ledger(db, req.twin)).value;
            var t := FoldAll(req.twin, Ledger(db, req.twin) + [NextEvent(db, req, now)]);
            t.Ok? && Applied(t.value, None) == Apply(s, NextEvent(db, req, now))
  {
    hide Apply, StoreSound;
    var events, e := Ledger(db, req.twin), NextEvent(db, req, now);
    var s := FoldAll(req.twin, events).value;
    SealIrrelevant(s, NextEvent(db, req, previewAt), e);
    FoldPosition(EmptyTwin(req.twin), events);
    FoldSnoc(EmptyTwin(req.twin), events, e);
  }

  /** The replay of a store after an append: only the ledger that grew has to be looked at. */
  lemma OneLedgerGrows(db: Db, req: Request, expected: int, now: int)
    requires StoreSound(db) && AllReplay(db)
    ensures var after := AppendTo(db, req, expected, now).0;
            after != db ==>
              && Ledger(after, req.twin) == Ledger(db, req.twin) + [NextEvent(db, req, now)]
              && (AllReplay(after) <==> FoldAll(req.twin, Ledger(after, req.twin)).Ok?)
  {
    hide FoldAll, StoreSound;
    var after := AppendTo(db, req, expected, now).0;
    if after != db && FoldAll(req.twin, Ledger(after, req.twin)).Ok? {
      forall t | t in after.ledgers
        ensures FoldAll(t, after.ledgers[t]).Ok?
      {
        if t != req.twin {
          assert after.ledgers[t] == db.ledgers[t];
        }
      }
    }
  }

  /** An event extends a replayable ledger to a replayable one exactly if a preview there accepts it. */
  lemma ReplaysIffPreviewed(db: Db, req: Request, previewAt: int, now: int)
    requires StoreSound(db) && FoldAll(req.twin, Ledger(db, req.twin)).Ok?
    ensures FoldAll(req.twin, Ledger(db, req.twin) + [NextEvent(db, req, now)]).Ok? <==> Preview(db, req, previewAt).None?
  {
    hide Apply, StoreSound;
    var events, e := Ledger(db, req.twin), NextEvent(db, req, now);
    SealIrrelevant(FoldAll(req.twin, events).value, NextEvent(db, req, previewAt), e);
    FoldPosition(EmptyTwin(req.twin), events);
    FoldSnoc(EmptyTwin(req.twin), events, e);
  }

  lemma CommitExpectsHead(db: Db, req: Request, expected: int, now: int)
    requires AppendTo(db, req, expected, now).0 != db
    ensures |Ledger(db, req.twin)| == expected
  {}

  lemma SameLedgerSamePreview(db: Db, later: Db, req: Request, previewAt: int)
    requires Ledger(db, req.twin) == Ledger(later, req.twin)
    ensures Preview(db, req, previewAt) == Preview(later, req, previewAt)
  {
    hide FoldAll, Apply;
  }

  /** A verdict on the true state at the head is the preview's. */
  lemma PreviewedHere(db: Db, req: Request, given: nat, expected: int, previewAt: int)
    ensures var events := Ledger(db, req.twin);
            Judge(|events|, HeadHash(events), FoldAll(req.twin, events), req, given, expected, previewAt).Previewed? ==>
              Preview(db, req, previewAt).None?
  {
    hide FoldAll, Apply, ValidEvent;
  }

  /**
    With other processes around, every ledger still replays exactly if nothing was committed or the
    transition is accepted where it was committed; and so it does whenever the caller expects no more
    than the head that was read and the state that was previewed is the fold at that head.
   */
  lemma AppendBesideReplays(db: Db, latest: Result<Twin>, later: Db, req: Request, given: nat, expected: int, previewAt: int,
                            now: int)
    requires StoreSound(later) && AllReplay(later) && Ledger(db, req.twin) <= Ledger(later, req.twin)
    ensures var after := AppendBeside(db, latest, later, req, given, expected, previewAt, now).0;
            && StoreSound(after)
            && (AllReplay(after) <==> after == later || Preview(later, req, previewAt).None?)
            && (expected <= |Ledger(db, req.twin)| && (latest.Ok? ==> latest == FoldAll(req.twin, Ledger(db, req.twin))) ==>
                  AllReplay(after))
  {
    hide FoldAll, StoreSound, ValidEvent, AllReplay, AppendTo, Preview, Apply;
    var after := AppendBeside(db, latest, later, req, given, expected, previewAt, now).0;
    AppendKeepsSound(later, req, expected, now);
    if after != later {
      LedgerReplays(later, req.twin);
      OneLedgerGrows(later, req, expected, now);
      ReplaysIffPreviewed(later, req, previewAt, now);
      CommitExpectsHead(later, req, expected, now);
      if expected <= |Ledger(db, req.twin)| && latest == FoldAll(req.twin, Ledger(db, req.twin)) {
        assert Ledger(db, req.twin) == Ledger(later, req.twin);
        PreviewedHere(later, req, given, expected, previewAt);
      }
    }
  }

  lemma KnownEvidenceIsRefused(s: Twin, e: Event)
    requires e.req.payload.EvidenceIngested? && e.req.payload.evidence in s.facts.evidence
    ensures Apply(s, e).error == Some(InvariantViolation)
  {
    hide ValidEvent;
  }

  lemma EvidenceStays(e: Event)
    requires e.req.payload.EvidenceIngested? && FoldAll(e.req.twin, [e]).Ok?
    ensures e.req.payload.evidence in FoldAll(e.req.twin, [e]).value.facts.evidence
  {
    assert [] + [e] == [e];
    FoldSnoc(EmptyTwin(e.req.twin), [], e);
  }

  /**
    The condition on the expected number is needed: evidence that is committed twice under two keys,
    the second time by a caller who expected a head that did not exist yet, leaves a ledger that
    cannot be replayed.
   */
  lemma ExpectingAheadCanBreakReplay(db: Db, latest: Result<Twin>, later: Db, e: Event, req: Request, previewAt: int, now: int)
    requires StoreSound(later) && AllReplay(later) && Ledger(db, req.twin) == [] && Ledger(later, req.twin) == [e]
    requires e.req.payload.EvidenceIngested? && req.payload == e.req.payload && req.key != e.req.key
    requires e.req.twin == req.twin
    requires ValidEvent(Envelope(req, 0)) && req.plane.Authoritative? && req.version.V2? && !EventIdTaken(later, req.eventId)
    ensures var (after, r) := AppendBeside(db, latest, later, req, 0, 1, previewAt, now);
            r.Ok? && |Ledger(after, req.twin)| == 2 && FoldAll(req.twin, Ledger(after, req.twin)).Err?
  {
    hide FoldAll, StoreSound, ValidEvent, Apply;
    LedgerReplays(later, req.twin);
    EvidenceStays(e);
    KnownEvidenceIsRefused(FoldAll(req.twin, [e]).value, NextEvent(later, req, previewAt));
    ReplaysIffPreviewed(later, req, previewAt, now);
    assert [e][0] == e;
  }

  /** Whatever the service appends, every ledger still replays to its end without an error. */
  lemma ServiceKeepsReplayable(db: Db, req: Request, given: nat, expected: int, previewAt: int, now: int)
    requires StoreSound(db) && AllReplay(db)
    ensures StoreSound(ServiceAppend(db, req, given, expected, previewAt, now).0)
    ensures AllReplay(ServiceAppend(db, req, given, expected, previewAt, now).0)
  {
    hide FoldAll, StoreSound, ValidEvent, Preview, AllReplay, AppendTo;
    SoleProcess(db, req, given, expected, previewAt, now);
    AppendBesideReplays(db, FoldAll(req.twin, Ledger(db, req.twin)), db, req, given, expected, previewAt, now);
    if |Ledger(db, req.twin)| != expected {
      UnpreviewedChangesNothing(db, req, expected, now);
    }
  }

  datatype ServiceCall = ServiceCall(req: Request, given: nat, expected: int, previewAt: int, now: int)

  ghost function RunCalls(db: Db, calls: seq<ServiceCall>): Db {
    if calls == [] then db else
      var c := calls[|calls| - 1];
      ServiceAppend(RunCalls(db, calls[..|calls| - 1]), c.req, c.given, c.expected, c.previewAt, c.now).0
  }

  /**
    Every ledger that the service reaches from a sound store whose ledgers replay, the empty one for
    instance, replays again, for any calls and any clock readings.
   */
  lemma {:induction false} EveryServiceLedgerReplays(db: Db, calls: seq<ServiceCall>)
    requires db == EMPTY_DB || (StoreSound(db) && AllReplay(db))
    ensures StoreSound(RunCalls(db, calls)) && AllReplay(RunCalls(db, calls))
  {
    hide StoreSound, FoldAll, ServiceAppend;
    if calls == [] {
      EmptyDbIsSound();
    } else {
      var c := calls[|calls| - 1];
      EveryServiceLedgerReplays(db, calls[..|calls| - 1]);
      ServiceKeepsReplayable(RunCalls(db, calls[..|calls| - 1]), c.req, c.given, c.expected, c.previewAt, c.now);
    }
  }

  /**
    A retry through the service changes nothing. It returns the original event exactly if its envelope
    is valid and of version 2, and it does not expect the current head or its transition would be
    accepted there again; the preview runs before the store sees the idempotency key.
   */
  lemma ServiceRetry(db: Db, e: Event, retry: Request, given: nat, expected: int, previewAt: int, now: int)
    requires StoreSound(db) && e in Ledger(db, retry.twin) && e.req.key == retry.key && SameRequest(e.req, retry)
    ensures var (after, r) := ServiceAppend(db, retry, given, expected, previewAt, now);
            after == db &&
            (r == Ok(e) <==> ValidEvent(Envelope(retry, given)) && retry.version.V2?
                             && (|Ledger(db, retry.twin)| != expected || Preview(db, retry, previewAt).None?))
  {
    hide FoldAll, ValidEvent, Preview, StoreSound;
    LedgerIsSound(db, retry.twin);
    if retry.version.V2? {
      HeldKeyAnswers(db, e, retry, expected, now);
    }
  }

  /** Evidence of version 2 that replays is valid in its envelope, too. */
  lemma ReplayedEvidenceIsValid(e: Event)
    requires e.req.payload.EvidenceIngested? && e.req.version.V2? && FoldAll(e.req.twin, [e]).Ok?
    ensures ValidEvent(Envelope(e.req, 0)) && !e.req.plane.Simulation?
  {
    assert [] + [e] == [e];
    FoldSnoc(EmptyTwin(e.req.twin), [], e);
  }

  /** Such a refusal happens: evidence cannot be ingested again at the head that its first ingestion made. */
  lemma RetryAtHeadIsRefused(db: Db, e: Event, previewAt: int, now: int)
    requires StoreSound(db) && Ledger(db, e.req.twin) == [e]
    requires e.req.payload.EvidenceIngested? && e.req.version.V2? && FoldAll(e.req.twin, [e]).Ok?
    ensures ServiceAppend(db, e.req, 0, 1, previewAt, now).1 == Err(InvariantViolation)
    ensures ServiceAppend(db, e.req, 0, 0, previewAt, now).1 == Ok(e)
  {
    hide Apply, FoldAll, StoreSound, ValidEvent;
    LedgerIsSound(db, e.req.twin);
    assert e in [e];
    HeldKeyAnswers(db, e, e.req, 0, now);
    EvidenceStays(e);
    ReplayedEvidenceIsValid(e);
    KnownEvidenceIsRefused(FoldAll(e.req.twin, [e]).value, NextEvent(db, e.req, previewAt));
  }
}
