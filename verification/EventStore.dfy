/**
  The authoritative store: one append-only hash-chained ledger per twin, committed together with an
  outbox row and the lineage index, and the snapshots of states. Each transaction is one step.
 */
module EventStore {
  import opened Types
  import opened Chain
  import opened Outbox
  import opened Lineage
  import opened LineageHistory
  import opened Snapshots

  /** The tables of the database, with the ledger and the lineage tables split by twin. */
  datatype Db = Db(ledgers: map<Id, seq<Event>>, outbox: Table, lineage: map<Id, Index>,
                   snapshots: map<RowKey, Snapshot>)

  const EMPTY_DB := Db(map[], map[], map[], map[])

  function Ledger(db: Db, twin: Id): seq<Event> {
    if twin in db.ledgers then db.ledgers[twin] else []
  }

  function IndexOf(db: Db, twin: Id): Index {
    if twin in db.lineage then db.lineage[twin] else EMPTY_INDEX
  }

  // ---------------------------------------------------------------- reading

  predicate InRange(e: Event, after: int, upTo: Option<int>, planes: Option<set<Plane>>) {
    && after < e.seqNo && (upTo.Some? ==> e.seqNo <= upTo.value)
    && (planes.Some? ==> e.req.plane in planes.value)
  }

  function Matching(events: seq<Event>, after: int, upTo: Option<int>, planes: Option<set<Plane>>): seq<Event> {
    if events == [] then [] else
      var last := events[|events| - 1];
      Matching(events[..|events| - 1], after, upTo, planes) + if InRange(last, after, upTo, planes) then [last] else []
  }

  /** The rows of a range query in ascending order, at most `limit` of them. */
  function Load(events: seq<Event>, after: int, upTo: Option<int>, planes: Option<set<Plane>>,
                limit: Option<int>): seq<Event> {
    var rows := Matching(events, after, upTo, planes);
    if limit.None? then rows
    else if limit.value <= 0 then []
    else if limit.value < |rows| then rows[..limit.value] else rows
  }

  /** The stretch of a ledger after one number and up to another. */
  function Slice(events: seq<Event>, after: nat, upTo: Option<int>): seq<Event> {
    var end := if upTo.Some? && upTo.value < |events| then upTo.value else |events|;
    if after < end then events[after..end] else []
  }

  lemma SliceOneMore(events: seq<Event>, after: nat, upTo: Option<int>)
    requires events != []
    ensures var n := |events| - 1;
            Slice(events, after, upTo)
            == Slice(events[..n], after, upTo)
               + if after <= n && (upTo.Some? ==> n + 1 <= upTo.value) then [events[n]] else []
  {
    var n := |events| - 1;
    if after <= n && (upTo.Some? ==> n + 1 <= upTo.value) {
      assert events[..n][after..n] + [events[n]] == events[after..n + 1];
    } else if after < n && upTo.Some? && after < upTo.value {
      assert events[..n][after..upTo.value] == events[after..upTo.value];
    }
  }

  lemma NothingToSlice(after: nat, upTo: Option<int>)
    ensures Slice([], after, upTo) == []
  {}

  /** On a gap-free ledger whose planes are all asked for, a range query is a slice. */
  lemma {:induction false} MatchingIsSlice(events: seq<Event>, after: nat, upTo: Option<int>, planes: Option<set<Plane>>)
    requires Numbered(events)
    requires planes.Some? ==> forall e :: e in events ==> e.req.plane in planes.value
    ensures Matching(events, after, upTo, planes) == Slice(events, after, upTo)
  {
    hide Slice;
    if events == [] {
      assert Slice(events, after, upTo) == [] by {
        NothingToSlice(after, upTo);
      }
    } else {
      var n := |events| - 1;
      assert events[n] in events && events[n].seqNo == n + 1;
      MatchingIsSlice(events[..n], after, upTo, planes);
      SliceOneMore(events, after, upTo);
    }
  }

  // ---------------------------------------------------------------- appending

  function FindKey(events: seq<Event>, key: Key): (r: Option<Event>)
    ensures r.None? <==> forall i :: 0 <= i < |events| ==> events[i].req.key != key
    ensures r.Some? ==> r.value in events && r.value.req.key == key
  {
    if events == [] then None
    else if events[0].req.key == key then Some(events[0])
    else FindKey(events[1..], key)
  }

  /** The comparison that tells a retry from the reuse of an idempotency key. */
  predicate SameRequest(a: Request, b: Request) {
    && a.payload == b.payload && a.plane == b.plane && a.producer == b.producer && a.role == b.role
    && a.version == b.version && a.occurredAt == b.occurredAt
    && a.causation == b.causation && a.correlation == b.correlation
  }

  predicate EventIdTaken(db: Db, id: Id) {
    exists t :: t in db.ledgers && exists i :: 0 <= i < |db.ledgers[t]| && db.ledgers[t][i].req.eventId == id
  }

  /** The new state of the tables when a sealed event commits. */
  ghost function CommitEvent(db: Db, e: Event): Db {
    var t := e.req.twin;
    Db(db.ledgers[t := Ledger(db, t) + [e]],
       db.outbox[RowKey(t, e.seqNo) := NewRow(e.recordedAt)],
       db.lineage[t := IndexEvent(IndexOf(db, t), e)],
       db.snapshots)
  }

  function NextEvent(db: Db, req: Request, now: int): Event {
    var events := Ledger(db, req.twin);
    Seal(req, |events| + 1, now, HeadHash(events))
  }

  ghost function AppendTo(db: Db, req: Request, expected: int, now: int): (Db, Result<Event>) {
    var events := Ledger(db, req.twin);
    var earlier := FindKey(events, req.key);
    if !req.version.V2? || req.plane.Simulation? then (db, Err(InvariantViolation))
    else if earlier.Some? then
      (db, if SameRequest(earlier.value.req, req) then Ok(earlier.value) else Err(InvariantViolation))
    else if |events| != expected then (db, Err(ConcurrencyConflict))
    else if EventIdTaken(db, req.eventId) then (db, Err(UniqueConstraint))
    else (CommitEvent(db, NextEvent(db, req, now)), Ok(NextEvent(db, req, now)))
  }

  // ---------------------------------------------------------------- what every append keeps

  ghost predicate LedgerSound(twin: Id, events: seq<Event>) {
    && IsChain(events)
    && (forall i, j :: 0 <= i < j < |events| ==> events[i].req.key != events[j].req.key)
    && forall e :: e in events ==> e.req.twin == twin && !e.req.plane.Simulation?
  }

  ghost predicate EventIdsUnique(db: Db) {
    forall t, u, i, j :: t in db.ledgers && u in db.ledgers
      && 0 <= i < |db.ledgers[t]| && 0 <= j < |db.ledgers[u]|
      && db.ledgers[t][i].req.eventId == db.ledgers[u][j].req.eventId
      ==> t == u && i == j
  }

  /** The outbox and index rows belong to events, and the index is the one the ledger determines. */
  ghost predicate DerivedRowsSound(db: Db) {
    && (forall k :: k in db.outbox ==> 1 <= k.seqNo <= |Ledger(db, k.twin)|)
    && (forall t :: t in db.lineage ==> t in db.ledgers)
    && forall t :: t in db.ledgers ==> Faithful(IndexOf(db, t), db.ledgers[t])
  }

  ghost predicate StoreSound(db: Db) {
    && (forall t :: t in db.ledgers ==> LedgerSound(t, db.ledgers[t]))
    && EventIdsUnique(db)
    && DerivedRowsSound(db)
  }

  lemma EmptyDbIsSound()
    ensures StoreSound(EMPTY_DB)
  {}

  lemma LedgerIsSound(db: Db, twin: Id)
    requires StoreSound(db)
    ensures LedgerSound(twin, Ledger(db, twin)) && Faithful(IndexOf(db, twin), Ledger(db, twin))
    ensures Numbered(Ledger(db, twin))
  {
    ChainIsNumbered(Ledger(db, twin));
  }

  lemma CommitKeepsLedger(db: Db, req: Request, now: int)
    requires StoreSound(db) && req.version.V2? && !req.plane.Simulation?
    requires FindKey(Ledger(db, req.twin), req.key).None?
    ensures LedgerSound(req.twin, Ledger(db, req.twin) + [NextEvent(db, req, now)])
  {
    LedgerIsSound(db, req.twin);
    SealExtendsChain(Ledger(db, req.twin), req, now);
  }

  lemma CommitKeepsEventIds(db: Db, e: Event)
    requires EventIdsUnique(db) && !EventIdTaken(db, e.req.eventId)
    ensures EventIdsUnique(CommitEvent(db, e))
  {}

  /** Replacing one twin's rows by rows that belong together keeps the others'. */
  lemma DerivedRowsReplaced(db: Db, after: Db, t: Id, events: seq<Event>, ix: Index, key: RowKey, row: Row)
    requires DerivedRowsSound(db) && Faithful(ix, events) && |Ledger(db, t)| <= |events|
    requires key.twin == t && 1 <= key.seqNo <= |events|
    requires after == Db(db.ledgers[t := events], db.outbox[key := row], db.lineage[t := ix], db.snapshots)
    ensures DerivedRowsSound(after)
  {
    forall u | u in after.ledgers
      ensures Faithful(IndexOf(after, u), after.ledgers[u])
    {
      if u != t {
        assert IndexOf(after, u) == IndexOf(db, u) && after.ledgers[u] == db.ledgers[u];
      }
    }
  }

  lemma CommitKeepsDerivedRows(db: Db, e: Event)
    requires StoreSound(db) && e.seqNo == |Ledger(db, e.req.twin)| + 1
    ensures DerivedRowsSound(CommitEvent(db, e))
  {
    var t := e.req.twin;
    LedgerIsSound(db, t);
    FaithfulStep(IndexWorld(Ledger(db, t), IndexOf(db, t)), AppendStep(e));
    DerivedRowsReplaced(db, CommitEvent(db, e), t, Ledger(db, t) + [e], IndexEvent(IndexOf(db, t), e),
                        RowKey(t, e.seqNo), NewRow(e.recordedAt));
  }

  /** Every append, committed or refused, by whichever writer, leaves a sound store. */
  lemma AppendKeepsSound(db: Db, req: Request, expected: int, now: int)
    requires StoreSound(db)
    ensures StoreSound(AppendTo(db, req, expected, now).0)
  {
    if AppendTo(db, req, expected, now).0 != db {
      CommitKeepsLedger(db, req, now);
      CommitKeepsEventIds(db, NextEvent(db, req, now));
      CommitKeepsDerivedRows(db, NextEvent(db, req, now));
    }
  }

  /** Ledgers only grow, and only by one event at their end. */
  lemma AppendOnlyExtends(db: Db, req: Request, expected: int, now: int, twin: Id)
    ensures var after := AppendTo(db, req, expected, now).0;
            Ledger(db, twin) <= Ledger(after, twin) && |Ledger(after, twin)| <= |Ledger(db, twin)| + 1
  {}

  datatype Write = Write(req: Request, expected: int, now: int)

  /** Any interleaving of the writers' transactions. */
  ghost function RunWrites(db: Db, writes: seq<Write>): Db {
    if writes == [] then db else
      var w := writes[|writes| - 1];
      AppendTo(RunWrites(db, writes[..|writes| - 1]), w.req, w.expected, w.now).0
  }

  lemma {:induction false} EveryStoreIsSound(db: Db, writes: seq<Write>)
    requires StoreSound(db)
    ensures StoreSound(RunWrites(db, writes))
    ensures forall t :: Ledger(db, t) <= Ledger(RunWrites(db, writes), t)
  {
    if writes != [] {
      var w, before := writes[|writes| - 1], RunWrites(db, writes[..|writes| - 1]);
      EveryStoreIsSound(db, writes[..|writes| - 1]);
      AppendKeepsSound(before, w.req, w.expected, w.now);
      forall t
        ensures Ledger(db, t) <= Ledger(RunWrites(db, writes), t)
      {
        AppendOnlyExtends(before, w.req, w.expected, w.now, t);
      }
    }
  }

  lemma {:induction false} FindsTheOnly(events: seq<Event>, n: nat)
    requires n < |events|
    requires forall i, j :: 0 <= i < j < |events| ==> events[i].req.key != events[j].req.key
    ensures FindKey(events, events[n].req.key) == Some(events[n])
  {
    if n > 0 {
      FindsTheOnly(events[1..], n - 1);
    }
  }

  lemma AnswerIsInLedger(db: Db, req: Request, expected: int, now: int)
    requires AppendTo(db, req, expected, now).1.Ok?
    ensures var (after, r) := AppendTo(db, req, expected, now);
            r.value in Ledger(after, req.twin) && SameRequest(r.value.req, req) && r.value.req.key == req.key
  {}

  lemma HeldKeyAnswers(db: Db, e: Event, retry: Request, expected: int, now: int)
    requires StoreSound(db) && e in Ledger(db, retry.twin) && e.req.key == retry.key
    requires retry.version.V2? && !retry.plane.Simulation?
    ensures AppendTo(db, retry, expected, now)
         == (db, if SameRequest(e.req, retry) then Ok(e) else Err(InvariantViolation))
  {
    LedgerIsSound(db, retry.twin);
    var events := Ledger(db, retry.twin);
    var n :| 0 <= n < |events| && events[n] == e;
    FindsTheOnly(events, n);
  }

  /**
    Idempotency: after a request was answered with an event, the same request under the same key is
    answered with that very event, whatever was written since, whatever sequence number it expects,
    and changes nothing. A different request under the key is refused, and changes nothing either.
   */
  lemma RetryReturnsTheOriginal(db: Db, req: Request, expected: int, now: int, writes: seq<Write>,
                                retry: Request, expectedThen: int, later: int)
    requires StoreSound(db) && AppendTo(db, req, expected, now).1.Ok?
    requires retry.twin == req.twin && retry.key == req.key && retry.version.V2? && !retry.plane.Simulation?
    ensures var answer := AppendTo(db, req, expected, now);
            var db2 := RunWrites(answer.0, writes);
            AppendTo(db2, retry, expectedThen, later)
            == (db2, if SameRequest(req, retry) then answer.1 else Err(InvariantViolation))
  {
    var (after, r) := AppendTo(db, req, expected, now);
    AnswerIsInLedger(db, req, expected, now);
    AppendKeepsSound(db, req, expected, now);
    EveryStoreIsSound(after, writes);
    assert Ledger(after, req.twin) <= Ledger(RunWrites(after, writes), req.twin);
    HeldKeyAnswers(RunWrites(after, writes), r.value, retry, expectedThen, later);
  }

  /** Compare-and-swap: of two different requests that expect the same head, only one commits. */
  lemma OnlyOneWriterWins(db: Db, a: Request, b: Request, expected: int, now: int, later: int)
    requires AppendTo(db, a, expected, now).0 != db && a.twin == b.twin && a.key != b.key
    requires AppendTo(db, b, expected, later).0 != db
    ensures AppendTo(AppendTo(db, a, expected, now).0, b, expected, later)
         == (AppendTo(db, a, expected, now).0, Err(ConcurrencyConflict))
  {
    var events := Ledger(db, a.twin);
    var after := events + [NextEvent(db, a, now)];
    assert forall i :: 0 <= i < |after| ==> after[i].req.key != b.key;
  }

  // ---------------------------------------------------------------- the ledger and the outbox

  /** The outbox key of every committed event. */
  ghost predicate IsCommitted(db: Db, k: RowKey) {
    1 <= k.seqNo <= |Ledger(db, k.twin)|
  }

  /** The run of the outbox that belongs to this store: its committed keys are the store's events. */
  ghost predicate OutboxMatches(db: Db, w: World) {
    w.table == db.outbox && forall k :: k in w.committed <==> IsCommitted(db, k)
  }

  /**
    Event and outbox row commit together: a successful append is one commit step of the outbox, of a
    key that was never committed before, and a refused or repeated one is no step at all.
   */
  lemma AppendIsOutboxCommit(db: Db, w: World, req: Request, expected: int, now: int)
    requires OutboxMatches(db, w)
    ensures var (after, r) := AppendTo(db, req, expected, now);
            if after == db then OutboxMatches(after, w)
            else
              var step := Step.Commit(RowKey(req.twin, |Ledger(db, req.twin)| + 1), now);
              r.Ok? && Enabled(w, step) && OutboxMatches(after, Take(w, step))
  {
    var (after, r) := AppendTo(db, req, expected, now);
    if after != db {
      var key := RowKey(req.twin, |Ledger(db, req.twin)| + 1);
      forall k
        ensures IsCommitted(after, k) <==> IsCommitted(db, k) || k == key
      {}
    }
  }
}
