/**
  Exactly when the memory of a service process goes wrong: when its own request stands further in the
  ledger than the place right after the head that it read, because another process recorded the same
  request after something else.
 */
module Skips {
  import opened Types
  import opened Chain
  import opened Aggregate
  import opened Fold
  import opened EventStore
  import opened ServiceLedger
  import opened Processes

  // ---------------------------------------------------------------- degradation is apart from all else

  function DegradedAfter(degraded: seq<Id>, p: Payload): seq<Id> {
    match p
    case DegradationDeclared(reason) => degraded + [reason]
    case DegradationCleared(reason) => Without(degraded, reason)
    case _ => degraded
  }

  const NO_CORRECTION := Correction(NO_ID, UnknownTarget, NO_ID, NO_ID, NO_ID, NO_ID)

  lemma AcceptanceIsApart(s: Facts, degraded: seq<Id>, p: Payload)
    ensures Accepts(s.(degraded := degraded), p) <==> Accepts(s, p)
  {
    hide Grounded, AllIn;
  }

  lemma SpreadIsApart(s: Facts, degraded: seq<Id>, id: Id, b: Correction, at: int)
    ensures DeleteEvidence(s.(degraded := degraded), id) == DeleteEvidence(s, id).(degraded := degraded)
    ensures SupersedeClaim(s.(degraded := degraded), id) == SupersedeClaim(s, id).(degraded := degraded)
    ensures CorrectEvidence(s.(degraded := degraded), id, b, at) == CorrectEvidence(s, id, b, at).(degraded := degraded)
    ensures CorrectClaim(s.(degraded := degraded), id, b, at) == CorrectClaim(s, id, b, at).(degraded := degraded)
  {
    hide ClaimsCiting, LinksCiting, ProjectionsDrawingOn;
  }

  predicate Spreads(p: Payload) {
    p.EvidenceDeleted? || p.ClaimSuperseded? || p.CorrectionRecorded?
  }

  lemma SpreadingIsApart(s: Facts, degraded: seq<Id>, p: Payload, at: int)
    requires Spreads(p)
    ensures Effect(s.(degraded := degraded), p, at) == Effect(s, p, at).(degraded := DegradedAfter(degraded, p))
  {
    hide DeleteEvidence, SupersedeClaim, CorrectEvidence, CorrectClaim;
    match p
    case EvidenceDeleted(id) => SpreadIsApart(s, degraded, id, NO_CORRECTION, at);
    case ClaimSuperseded(id, _) => SpreadIsApart(s, degraded, id, NO_CORRECTION, at);
    case CorrectionRecorded(id, b) => SpreadIsApart(s, degraded, id, b, at);
  }

  lemma RecordingIsApart(s: Facts, degraded: seq<Id>, p: Payload, at: int)
    requires !Spreads(p)
    ensures Effect(s.(degraded := degraded), p, at) == Effect(s, p, at).(degraded := DegradedAfter(degraded, p))
  {
    hide Without;
  }

  /** No payload looks at the degradation, and none but its own two touch it. */
  lemma DegradationIsApart(s: Facts, degraded: seq<Id>, p: Payload, at: int)
    ensures Accepts(s.(degraded := degraded), p) <==> Accepts(s, p)
    ensures Effect(s.(degraded := degraded), p, at) == Effect(s, p, at).(degraded := DegradedAfter(degraded, p))
  {
    hide Accepts, Effect, DegradedAfter;
    AcceptanceIsApart(s, degraded, p);
    if Spreads(p) {
      SpreadingIsApart(s, degraded, p, at);
    } else {
      RecordingIsApart(s, degraded, p, at);
    }
  }

  /** A reason that the payload does not clear. */
  function OtherReason(p: Payload): Id {
    if p.DegradationCleared? then p.reason + 1 else 1
  }

  lemma {:induction false} WithoutSnoc(ids: seq<Id>, id: Id, x: Id)
    ensures Without(ids + [id], x) == Without(ids, x) + if id == x then [] else [id]
  {
    if ids != [] {
      WithoutSnoc(ids[1..], id, x);
      assert (ids + [id])[1..] == ids[1..] + [id];
    } else {
      assert [] + [id] == [id];
    }
  }

  lemma OneMoreReason(degraded: seq<Id>, p: Payload)
    ensures |DegradedAfter(degraded + [OtherReason(p)], p)| == |DegradedAfter(degraded, p)| + 1
  {
    if p.DegradationCleared? {
      WithoutSnoc(degraded, OtherReason(p), p.reason);
    }
  }

  // ---------------------------------------------------------------- what another process may write

  lemma {:induction false} HasBound(ids: set<nat>) returns (bound: nat)
    ensures forall i :: i in ids ==> i < bound
  {
    if ids == {} {
      bound := 0;
    } else {
      var i :| i in ids;
      var rest := HasBound(ids - {i});
      bound := if i < rest then rest else i + 1;
      assert forall j :: j in ids ==> j == i || j in ids - {i};
    }
  }

  lemma FreshKey(events: seq<Event>, avoid: Key) returns (id: Id)
    ensures id != NO_ID && Given(id) != avoid && FindKey(events, Given(id)).None?
  {
    var ids := set i | 0 <= i < |events| && events[i].req.key.Given? :: events[i].req.key.id;
    var bound := HasBound(ids);
    id := if avoid == Given(bound + 1) then bound + 2 else bound + 1;
    forall i | 0 <= i < |events|
      ensures events[i].req.key != Given(id)
    {
      if events[i].req.key.Given? {
        assert events[i].req.key.id in ids;
      }
    }
  }

  lemma FreshEventId(db: Db) returns (id: Id)
    ensures !EventIdTaken(db, id)
  {
    var ids := set t, i | t in db.ledgers && 0 <= i < |db.ledgers[t]| :: db.ledgers[t][i].req.eventId;
    id := HasBound(ids);
    forall t, i | t in db.ledgers && 0 <= i < |db.ledgers[t]|
      ensures db.ledgers[t][i].req.eventId != id
    {
      assert db.ledgers[t][i].req.eventId in ids;
    }
  }

  /** A call that the service commits: new, valid, and accepted at the head that it expects. */
  lemma CallCommits(db: Db, c: ServiceCall)
    requires StoreSound(db) && AllReplay(db) && ValidEvent(Envelope(c.req, c.given))
    requires c.req.version.V2? && !c.req.plane.Simulation?
    requires c.expected == |Ledger(db, c.req.twin)| && FindKey(Ledger(db, c.req.twin), c.req.key).None?
    requires !EventIdTaken(db, c.req.eventId) && Preview(db, c.req, c.previewAt).None?
    ensures var after := ServiceAppend(db, c.req, c.given, c.expected, c.previewAt, c.now).0;
            var events, e := Ledger(db, c.req.twin), NextEvent(db, c.req, c.now);
            && StoreSound(after) && AllReplay(after) && Ledger(after, c.req.twin) == events + [e]
            && FoldAll(c.req.twin, events).Ok?
            && FoldAll(c.req.twin, events + [e]) == Ok(Apply(FoldAll(c.req.twin, events).value, e).state)
            && Apply(FoldAll(c.req.twin, events).value, e).error.None?
  {
    hide StoreSound, AllReplay, ValidEvent, Preview, Apply, FoldAll, IndexOf;
    ServiceKeepsReplayable(db, c.req, c.given, c.expected, c.previewAt, c.now);
    LedgerReplays(db, c.req.twin);
    PersistedFollowsPreview(db, c.req, c.previewAt, c.now);
  }

  /** Another process declares a degradation, under a new key; the twin's other facts stay. */
  lemma Declare(db: Db, req: Request) returns (c: ServiceCall)
    requires StoreSound(db) && AllReplay(db) && req.twin != NO_ID && req.producer != NO_ID
    ensures c.req.twin == req.twin && c.req.key != req.key
    ensures var after := ServiceAppend(db, c.req, c.given, c.expected, c.previewAt, c.now).0;
            var events, more := Ledger(db, req.twin), Ledger(after, req.twin);
            && StoreSound(after) && AllReplay(after) && more == events + [NextEvent(db, c.req, c.now)]
            && FoldAll(req.twin, events).Ok? && FoldAll(req.twin, more).Ok?
            && var facts := FoldAll(req.twin, events).value.facts;
               FoldAll(req.twin, more).value.facts == facts.(degraded := facts.degraded + [OtherReason(req.payload)])
  {
    hide StoreSound, AllReplay, FoldAll, EventIdTaken, ServiceAppend;
    var events := Ledger(db, req.twin);
    var key := FreshKey(events, req.key);
    var eventId := FreshEventId(db);
    var declared := Request(eventId, req.twin, Authoritative, DegradationDeclared(OtherReason(req.payload)), 0, req.producer,
                            req.role, Given(key), V2, None, None);
    c := ServiceCall(declared, 0, |events|, 0, 0);
    LedgerReplays(db, req.twin);
    CallCommits(db, c);
  }

  /** So many events more on the ledger, none of them the request, and nothing but the degradation differs. */
  ghost predicate Crowded(db: Db, later: Db, req: Request, k: nat) {
    var events, more := Ledger(db, req.twin), Ledger(later, req.twin);
    && StoreSound(later) && AllReplay(later)
    && events <= more && |more| == |events| + k && FindKey(more, req.key).None?
    && FoldAll(req.twin, events).Ok? && FoldAll(req.twin, more).Ok?
    && var s, t := FoldAll(req.twin, events).value.facts, FoldAll(req.twin, more).value.facts;
       && t == s.(degraded := t.degraded)
       && |DegradedAfter(t.degraded, req.payload)| == |DegradedAfter(s.degraded, req.payload)| + k
  }

  lemma CrowdedOneMore(db: Db, later: Db, after: Db, e: Event, req: Request, k: nat)
    requires Crowded(db, later, req, k) && StoreSound(after) && AllReplay(after) && e.req.key != req.key
    requires Ledger(after, req.twin) == Ledger(later, req.twin) + [e] && FoldAll(req.twin, Ledger(after, req.twin)).Ok?
    requires var facts := FoldAll(req.twin, Ledger(later, req.twin)).value.facts;
             FoldAll(req.twin, Ledger(after, req.twin)).value.facts
             == facts.(degraded := facts.degraded + [OtherReason(req.payload)])
    ensures Crowded(db, after, req, k + 1)
  {
    hide StoreSound, AllReplay, FoldAll, DegradedAfter, OtherReason, Ledger;
    OneMoreReason(FoldAll(req.twin, Ledger(later, req.twin)).value.facts.degraded, req.payload);
  }

  lemma NotCrowded(db: Db, req: Request)
    requires StoreSound(db) && AllReplay(db) && FindKey(Ledger(db, req.twin), req.key).None?
    requires FoldAll(req.twin, Ledger(db, req.twin)).Ok?
    ensures Crowded(db, db, req, 0)
  {
    hide StoreSound, AllReplay, FoldAll, DegradedAfter, Ledger, FindKey;
  }

  lemma CrowdedIsSound(db: Db, later: Db, req: Request, k: nat)
    requires Crowded(db, later, req, k)
    ensures StoreSound(later) && AllReplay(later)
  {
    hide StoreSound, AllReplay, FoldAll, DegradedAfter, Ledger, FindKey;
  }

  lemma {:induction false} Crowd(db: Db, req: Request, k: nat) returns (calls: seq<ServiceCall>)
    requires StoreSound(db) && AllReplay(db) && req.twin != NO_ID && req.producer != NO_ID
    requires FindKey(Ledger(db, req.twin), req.key).None?
    ensures Crowded(db, RunCalls(db, calls), req, k)
  {
    hide StoreSound, AllReplay, FoldAll, FindKey, ServiceAppend, Crowded;
    if k == 0 {
      calls := [];
      LedgerReplays(db, req.twin);
      assert Crowded(db, db, req, 0) by {
        NotCrowded(db, req);
      }
    } else {
      var before := Crowd(db, req, k - 1);
      var later := RunCalls(db, before);
      CrowdedIsSound(db, later, req, k - 1);
      var c := Declare(later, req);
      calls := before + [c];
      assert calls[..|before|] == before;
      CrowdedOneMore(db, later, RunCalls(db, calls), NextEvent(later, c.req, c.now), req, k - 1);
    }
  }

  // ---------------------------------------------------------------- the skip

  lemma AcceptedIsValid(s: Twin, req: Request, copy: Request)
    requires AcceptedAfter(s, req) && copy == req.(eventId := copy.eventId)
    ensures ValidEvent(Envelope(copy, 1)) && !copy.plane.Simulation? && Accepts(s.facts, req.payload)
    ensures req.twin != NO_ID && req.producer != NO_ID
  {
    hide Accepts, Effect, LeftBehind, ValidPayload;
    var e: Event :| e.req == req && e.seqNo == s.seqNo + 1 && Apply(s, e).error.None?;
  }

  lemma AcceptedWhenCrowded(s: Twin, t: Twin, req: Request, e: Event)
    requires AcceptedAfter(s, req) && t.facts == s.facts.(degraded := t.facts.degraded)
    requires e.seqNo >= 1 && e.req == req.(eventId := e.req.eventId)
    ensures Apply(s, e).error.None? && Apply(t, e).error.None?
    ensures Apply(s, e).state.facts.degraded == DegradedAfter(s.facts.degraded, req.payload)
    ensures Apply(t, e).state.facts.degraded == DegradedAfter(t.facts.degraded, req.payload)
  {
    hide Accepts, Effect, LeftBehind, ValidPayload, DegradedAfter;
    AcceptedIsValid(s, req, e.req);
    DegradationIsApart(s.facts, t.facts.degraded, req.payload, e.recordedAt);
    DegradationIsApart(s.facts, s.facts.degraded, req.payload, e.recordedAt);
  }

  /** After other declarations, another process records the request itself, as an event identifier of its own. */
  lemma RecordElsewhere(db: Db, later: Db, s: Twin, req: Request, k: nat) returns (c: ServiceCall)
    requires Crowded(db, later, req, k) && FoldAll(req.twin, Ledger(db, req.twin)) == Ok(s) && AcceptedAfter(s, req)
    requires req.version.V2?
    ensures c.req.twin == req.twin && c.req.key == req.key && SameRequest(c.req, req)
    ensures var after := ServiceAppend(later, c.req, c.given, c.expected, c.previewAt, c.now).0;
            var more, e := Ledger(later, req.twin), NextEvent(later, c.req, c.now);
            && StoreSound(after) && Ledger(after, req.twin) == more + [e]
            && FoldAll(req.twin, more).Ok? && Apply(FoldAll(req.twin, more).value, e).error.None?
            && FoldAll(req.twin, more + [e]) == Ok(Apply(FoldAll(req.twin, more).value, e).state)
  {
    hide StoreSound, AllReplay, FoldAll, EventIdTaken, ServiceAppend, FindKey, DegradedAfter;
    var more := Ledger(later, req.twin);
    var eventId := FreshEventId(later);
    c := ServiceCall(req.(eventId := eventId), 1, |more|, 0, 0);
    AcceptedIsValid(s, req, c.req);
    AcceptedWhenCrowded(s, FoldAll(req.twin, more).value, req, NextEvent(later, c.req, 0));
    CallCommits(later, c);
  }

  /** The process advances its state over what it has not seen, and the state passes for the latest one. */
  ghost predicate Misled(later: Db, head: nat, s: Twin, req: Request, now: int) {
    var (after, r) := AppendTo(later, req, head, now);
    var events, kept := Ledger(after, req.twin), Kept(map[req.twin := s], req.twin, head, Some(s), r);
    && after == later && req.twin in kept
    && StandsAtHead(kept[req.twin], |events|, HeadHash(events)) && Ok(kept[req.twin]) != FoldAll(req.twin, events)
  }

  /** Where the key stands in the ledger, or 0 if it is free. */
  function KeyStandsAt(events: seq<Event>, key: Key): nat {
    match FindKey(events, key)
    case Some(e) => e.seqNo
    case None => 0
  }

  /** The copy of a request is what the store finds under its key, and what a retry is answered with. */
  lemma CopyIsFound(after: Db, more: seq<Event>, req: Request, e: Event, head: nat, now: int)
    requires StoreSound(after) && Ledger(after, req.twin) == more + [e] && req.version.V2? && !req.plane.Simulation?
    requires e.req.key == req.key && SameRequest(e.req, req)
    ensures FindKey(Ledger(after, req.twin), req.key) == Some(e)
    ensures AppendTo(after, req, head, now) == (after, Ok(e))
  {
    hide StoreSound, IndexOf, FindKey;
    LedgerIsSound(after, req.twin);
    FindsTheOnly(more + [e], |more|);
    assert (more + [e])[|more|] == e;
  }

  lemma MisledByCopy(db: Db, later: Db, after: Db, s: Twin, req: Request, k: nat, e: Event, now: int)
    requires Crowded(db, later, req, k) && k >= 1 && FoldAll(req.twin, Ledger(db, req.twin)) == Ok(s)
    requires AcceptedAfter(s, req) && req.version.V2? && StoreSound(after)
    requires e.req.twin == req.twin && e.req.key == req.key && SameRequest(e.req, req)
    requires var more := Ledger(later, req.twin);
             && e.seqNo == |more| + 1 && e.req == req.(eventId := e.req.eventId) && Ledger(after, req.twin) == more + [e]
             && FoldAll(req.twin, more).Ok?
             && FoldAll(req.twin, more + [e]) == Ok(Apply(FoldAll(req.twin, more).value, e).state)
    ensures KeyStandsAt(Ledger(after, req.twin), req.key) == |Ledger(db, req.twin)| + 1 + k
    ensures Misled(after, |Ledger(db, req.twin)|, s, req, now)
  {
    hide StoreSound, FoldAll, Apply, DegradedAfter, AppendTo, AcceptedAfter, AllReplay, FindKey, SameRequest;
    var more := Ledger(later, req.twin);
    AcceptedIsValid(s, req, req);
    AcceptedWhenCrowded(s, FoldAll(req.twin, more).value, req, e);
    AppliedPosition(s, e);
    CopyIsFound(after, more, req, e, |Ledger(db, req.twin)|, now);
  }

  /**
    From any store whose ledgers replay, for any request that is new and accepted next, and for any
    number of events in between: other processes can write, through the service, so many events and
    then the same request, and the process that read before them is misled.
   */
  lemma SkippedEventsAreMissed(db: Db, s: Twin, req: Request, k: nat, now: int) returns (calls: seq<ServiceCall>)
    requires StoreSound(db) && AllReplay(db) && FoldAll(req.twin, Ledger(db, req.twin)) == Ok(s) && AcceptedAfter(s, req)
    requires req.version.V2? && FindKey(Ledger(db, req.twin), req.key).None? && k >= 1
    ensures var later := RunCalls(db, calls);
            && StoreSound(later) && KeyStandsAt(Ledger(later, req.twin), req.key) == |Ledger(db, req.twin)| + 1 + k
            && Misled(later, |Ledger(db, req.twin)|, s, req, now)
  {
    hide StoreSound, AllReplay, FoldAll, ServiceAppend, Crowded, Misled, AcceptedAfter, KeyStandsAt;
    AcceptedIsValid(s, req, req);
    var before := Crowd(db, req, k);
    var later := RunCalls(db, before);
    var c := RecordElsewhere(db, later, s, req, k);
    calls := before + [c];
    assert calls[..|before|] == before;
    MisledByCopy(db, later, RunCalls(db, calls), s, req, k, NextEvent(later, c.req, c.now), now);
  }

  /** Right or not after the write: what the process then holds of the twin is the fold of a prefix. */
  ghost predicate StaysRight(later: Db, head: nat, s: Twin, req: Request, now: int) {
    var (after, r) := AppendTo(later, req, head, now);
    RightFor(req.twin, Ledger(after, req.twin), Kept(map[req.twin := s], req.twin, head, Some(s), r))
  }

  /** A key that stands near, or is free for a caller who expects no more than was read, lands near. */
  lemma NearKeyLandsNear(later: Db, req: Request, expected: int, now: int, head: nat)
    requires KeyStandsAt(Ledger(later, req.twin), req.key) <= head + 1
    requires FindKey(Ledger(later, req.twin), req.key).None? ==> expected <= head
    ensures LandsNear(later, req, expected, now, head)
  {
    hide FindKey, IndexOf;
  }

  /** The same for any sound contents of the store, not only for those that the service can write. */
  lemma NearKeyStaysRight(db: Db, later: Db, s: Twin, req: Request, now: int)
    requires StoreSound(later) && Ledger(db, req.twin) <= Ledger(later, req.twin)
    requires FoldAll(req.twin, Ledger(db, req.twin)) == Ok(s) && AcceptedAfter(s, req)
    requires KeyStandsAt(Ledger(later, req.twin), req.key) <= |Ledger(db, req.twin)| + 1
    ensures StaysRight(later, |Ledger(db, req.twin)|, s, req, now)
  {
    hide StoreSound, FoldFrom, AppendTo, AcceptedAfter, Kept;
    var head := |Ledger(db, req.twin)|;
    FoldIsHeld(req.twin, Ledger(db, req.twin));
    PrefixStaysHeld(req.twin, Ledger(db, req.twin), Ledger(later, req.twin), s);
    NearKeyLandsNear(later, req, head, now, head);
    WriteStaysRight(later, req, head, now, head, Some(s), map[req.twin := s]);
  }

  lemma MisledIsWrong(later: Db, head: nat, s: Twin, req: Request, now: int)
    requires Misled(later, head, s, req, now)
    ensures !StaysRight(later, head, s, req, now)
  {
    hide AppendTo, Kept, FoldFrom, HeadHash;
    var events := Ledger(later, req.twin);
    assert events[..|events|] == events;
  }

  lemma {:induction false} CallsExtend(db: Db, calls: seq<ServiceCall>, twin: Id)
    ensures Ledger(db, twin) <= Ledger(RunCalls(db, calls), twin)
  {
    hide ValidEvent, Preview, AppendTo;
    if calls != [] {
      var c := calls[|calls| - 1];
      CallsExtend(db, calls[..|calls| - 1], twin);
      AppendOnlyExtends(RunCalls(db, calls[..|calls| - 1]), c.req, c.expected, c.now, twin);
    }
  }

  /**
    Exactly when memory stays right. A process has read a head and admitted a request that is new and
    accepted there. Whatever other processes then write, its memory is right after its own write, as
    long as the key is free or stands no further than right after that head in the ledger that the
    write meets; and if it stands further, at whatever place, what they wrote can be such that the
    memory is wrong.
   */
  lemma MemoryStaysRightIffKeyIsNear(db: Db, s: Twin, req: Request, n: nat, now: int)
    requires StoreSound(db) && AllReplay(db) && FoldAll(req.twin, Ledger(db, req.twin)) == Ok(s) && AcceptedAfter(s, req)
    requires req.version.V2? && FindKey(Ledger(db, req.twin), req.key).None?
    ensures (forall calls :: KeyStandsAt(Ledger(RunCalls(db, calls), req.twin), req.key) == n ==>
               StaysRight(RunCalls(db, calls), |Ledger(db, req.twin)|, s, req, now))
       <==> n <= |Ledger(db, req.twin)| + 1
  {
    hide StoreSound, AllReplay, FoldAll, RunCalls, StaysRight, KeyStandsAt, Misled, AcceptedAfter;
    var head := |Ledger(db, req.twin)|;
    if n <= head + 1 {
      forall calls | KeyStandsAt(Ledger(RunCalls(db, calls), req.twin), req.key) == n
        ensures StaysRight(RunCalls(db, calls), head, s, req, now)
      {
        EveryServiceLedgerReplays(db, calls);
        CallsExtend(db, calls, req.twin);
        NearKeyStaysRight(db, RunCalls(db, calls), s, req, now);
      }
    } else {
      var calls := SkippedEventsAreMissed(db, s, req, n - head - 1, now);
      MisledIsWrong(RunCalls(db, calls), head, s, req, now);
    }
  }
}
