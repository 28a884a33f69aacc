/**
  The store object: its tables are updated in place, one transaction a method, each proved against
  the transition functions of modules EventStore, Outbox, Lineage and Replay. A transaction that
  fails leaves every table as it was.
 */
module Store {
  import opened Types
  import opened Chain
  import opened Outbox
  import opened Lineage
  import opened LineageHistory
  import opened Snapshots
  import opened EventStore
  import opened Replay

  /** A claimed publication: the fence together with the event it is for. */
  datatype OutboxRecord = OutboxRecord(ticket: Ticket, event: Event)

  /** A twin's index, built again from its ledger over its existing queue. */
  ghost function RebuiltIndex(db: Db, t: Id): Index {
    IndexFrom(Index(map[], IndexOf(db, t).queue), OnlyIndexed(Ledger(db, t)))
  }

  class SQLiteEventStore {
    var ledgers: map<Id, seq<Event>>
    var outbox: Table
    var lineage: map<Id, Index>
    var snapshots: map<RowKey, Snapshot>

    function View(): Db
      reads this
    {
      Db(ledgers, outbox, lineage, snapshots)
    }

    constructor ()
      ensures View() == EMPTY_DB
    {
      ledgers, outbox, lineage, snapshots := map[], map[], map[], map[];
    }

    /** Append with compare-and-swap and idempotency: event, index and outbox row, or nothing. */
    method Append(req: Request, expected: int, now: int) returns (r: Result<Event>)
      modifies this
      ensures (View(), r) == AppendTo(old(View()), req, expected, now)
    {
      if !req.version.V2? || req.plane.Simulation? {
        return Err(InvariantViolation);
      }
      var events := Ledger(View(), req.twin);
      var earlier := FindKey(events, req.key);
      if earlier.Some? {
        if !SameRequest(earlier.value.req, req) {
          return Err(InvariantViolation);
        }
        return Ok(earlier.value);
      }
      if |events| != expected {
        return Err(ConcurrencyConflict);
      }
      var e := NextEvent(View(), req, now);
      if EventIdTaken(View(), req.eventId) {
        return Err(UniqueConstraint);
      }
      var ix := IndexDependencies(IndexOf(View(), req.twin), e);
      ledgers := ledgers[req.twin := events + [e]];
      lineage := lineage[req.twin := ix];
      outbox := outbox[RowKey(req.twin, e.seqNo) := NewRow(e.recordedAt)];
      return Ok(e);
    }

    function Head(twin: Id): (int, Hash)
      reads this
    {
      var events := Ledger(View(), twin);
      (|events|, HeadHash(events))
    }

    /** Save a snapshot of a persisted position once; saving it again returns the stored one. */
    method Save(x: Snapshot) returns (r: Result<Snapshot>)
      modifies this`snapshots
      ensures (View(), r) == SaveSnapshot(old(View()), x)
    {
      if !SnapshotVerifies(x) {
        return Err(IntegrityError);
      }
      var events := Ledger(View(), x.twinId);
      if x.seqNo > |events| || events[x.seqNo - 1].hash != x.lastHash {
        return Err(IntegrityError);
      }
      var key := RowKey(x.twinId, x.seqNo);
      if key in snapshots {
        if !SnapshotVerifies(snapshots[key]) || snapshots[key].stateHash != x.stateHash {
          return Err(IntegrityError);
        }
        return Ok(snapshots[key]);
      }
      snapshots := snapshots[key := x];
      return Ok(x);
    }

    lemma NewestKept(db: Db, twin: Id, keep: nat, rest: set<nat>, doomed: set<RowKey>)
      requires IsBeyondNewest(SnapshotNumbers(db.snapshots, twin), keep, rest)
      requires doomed == set k | k in db.snapshots && k.twin == twin && k.seqNo in rest
      ensures PruneSnapshots(db, twin, keep) == db.(snapshots := db.snapshots - doomed)
    {
      hide Newer;
    }

    lemma RemovedCount(held: map<RowKey, Snapshot>, doomed: set<RowKey>)
      requires doomed <= held.Keys
      ensures |held - doomed| == |held| - |doomed|
    {
      assert (held - doomed).Keys == held.Keys - doomed;
    }

    /** Keep the newest snapshots of a twin and delete the others. */
    method Prune(twin: Id, keep: int) returns (r: Result<nat>)
      modifies this`snapshots
      ensures keep < 1 ==> r == Err(InvalidValue) && snapshots == old(snapshots)
      ensures keep >= 1 ==>
        View() == PruneSnapshots(old(View()), twin, keep) && r == Ok(|old(snapshots)| - |snapshots|)
    {
      if keep < 1 {
        return Err(InvalidValue);
      }
      hide SnapshotNumbers, IsBeyondNewest, PruneSnapshots;
      var rest := BeyondNewest(SnapshotNumbers(snapshots, twin), keep);
      var doomed := set k | k in snapshots && k.twin == twin && k.seqNo in rest;
      NewestKept(View(), twin, keep, rest, doomed);
      RemovedCount(snapshots, doomed);
      snapshots := snapshots - doomed;
      return Ok(|doomed|);
    }

    lemma LinkVerifies(events: seq<Event>, i: nat)
      requires i < |events| && !Verifies(events[i], events[i].previous)
      ensures !LinkHolds(events, i)
    {}

    /** Join claimed rows to their events, and verify each event; on a sound store this cannot fail. */
    method Join(tickets: seq<Ticket>) returns (r: Result<seq<OutboxRecord>>)
      ensures r.Ok? ==>
        && |r.value| == |tickets|
        && forall i :: 0 <= i < |tickets| ==>
             && IsCommitted(View(), tickets[i].key)
             && r.value[i] == OutboxRecord(tickets[i], Ledger(View(), tickets[i].key.twin)[tickets[i].key.seqNo - 1])
      ensures r.Err? ==> r.error == IntegrityError
      ensures StoreSound(View()) && (forall k :: k in tickets ==> IsCommitted(View(), k.key)) ==> r.Ok?
    {
      hide LinkHolds, Faithful;
      var records: seq<OutboxRecord> := [];
      for i := 0 to |tickets|
        invariant |records| == i
        invariant forall k :: 0 <= k < i ==>
          && IsCommitted(View(), tickets[k].key)
          && records[k] == OutboxRecord(tickets[k], Ledger(View(), tickets[k].key.twin)[tickets[k].key.seqNo - 1])
      {
        var key := tickets[i].key;
        var events := Ledger(View(), key.twin);
        assert tickets[i] in tickets;
        if key.seqNo < 1 || key.seqNo > |events| {
          return Err(IntegrityError);
        }
        var e := events[key.seqNo - 1];
        if !Verifies(e, e.previous) {
          LinkVerifies(events, key.seqNo - 1);
          return Err(IntegrityError);
        }
        records := records + [OutboxRecord(tickets[i], e)];
      }
      return Ok(records);
    }

    lemma ClaimedAreCommitted(db: Db, selected: seq<RowKey>, owner: Id, now: int, limit: int)
      requires IsSelection(db.outbox, now, limit, selected)
      ensures forall k :: k in selected ==> k in db.outbox
      ensures StoreSound(db) ==> forall k :: k in TicketsFor(db.outbox, selected, owner) ==> IsCommitted(db, k.key)
    {
      hide Faithful, LedgerSound, EventIdsUnique;
      assert forall i :: 0 <= i < |selected| ==> selected[i] in Eligible(db.outbox, now);
    }

    /** Lease the oldest claimable rows. No row is leased when a record cannot be joined to its event. */
    method ClaimOutbox(owner: Id, limit: int, leaseSeconds: int, now: int)
      returns (r: Result<seq<OutboxRecord>>, ghost step: Option<Step>)
      modifies this`outbox
      ensures r.Err? ==> outbox == old(outbox) && step.None?
      ensures owner == NO_ID || (limit > 0 && leaseSeconds < 1) ==> r == Err(InvalidValue)
      ensures owner != NO_ID && limit <= 0 ==> r == Ok([]) && outbox == old(outbox)
      ensures step.Some? ==>
        && r.Ok? && step.value.ClaimStep? && step.value.owner == owner && step.value.now == now
        && step.value.until == now + leaseSeconds && step.value.limit == limit
        && IsSelection(old(outbox), now, limit, step.value.selected)
        && outbox == ClaimRows(old(outbox), step.value.selected, owner, now + leaseSeconds)
        && |r.value| == |step.value.selected|
        && forall i :: 0 <= i < |r.value| ==>
             && r.value[i].ticket == TicketsFor(old(outbox), step.value.selected, owner)[i]
             && var k := step.value.selected[i];
                1 <= k.seqNo <= |Ledger(View(), k.twin)| && r.value[i].event == Ledger(View(), k.twin)[k.seqNo - 1]
      ensures StoreSound(old(View())) && owner != NO_ID && limit > 0 && leaseSeconds >= 1 ==> step.Some?
    {
      step := None;
      if owner == NO_ID {
        return Err(InvalidValue), None;
      }
      if limit <= 0 {
        return Ok([]), None;
      }
      if leaseSeconds < 1 {
        return Err(InvalidValue), None;
      }
      var after, tickets, selected := ClaimOldest(outbox, owner, limit, now, now + leaseSeconds);
      ClaimedAreCommitted(View(), selected, owner, now, limit);
      hide StoreSound, IsSelection, ClaimRows;
      var records := Join(tickets);
      if records.Err? {
        return Err(records.error), None;
      }
      outbox := after;
      return records, Some(ClaimStep(owner, limit, now, now + leaseSeconds, selected));
    }

    method MarkOutboxPublished(k: Ticket, now: int) returns (ok: bool)
      modifies this`outbox
      ensures ok == Holds(old(outbox), k)
      ensures outbox == MarkPublished(old(outbox), k, now)
    {
      ok := Holds(outbox, k);
      if ok {
        outbox := outbox[k.key := outbox[k.key].(publishedAt := Some(now), owner := None,
                                                 leaseUntil := None, lastError := None)];
      }
    }

    method ReleaseOutbox(k: Ticket, error: Error) returns (ok: bool)
      modifies this`outbox
      ensures ok == Holds(old(outbox), k)
      ensures outbox == Release(old(outbox), k, error)
    {
      ok := Holds(outbox, k);
      if ok {
        outbox := outbox[k.key := outbox[k.key].(owner := None, leaseUntil := None, lastError := Some(error))];
      }
    }

    /** Delete the oldest rows published before the given time, at most `limit` of them, and count them. */
    method PruneOutbox(before: int, limit: int) returns (n: nat)
      modifies this`outbox
      ensures outbox.Keys <= old(outbox.Keys) && forall k :: k in outbox ==> outbox[k] == old(outbox)[k]
      ensures IsOldestPrunable(old(outbox), before, limit, old(outbox.Keys) - outbox.Keys)
      ensures n == |old(outbox.Keys) - outbox.Keys|
      ensures IsPruned(old(outbox), before, outbox)
    {
      if limit <= 0 {
        assert outbox.Keys - outbox.Keys == {};
        return 0;
      }
      var rows := OldestPrunable(outbox, before, limit);
      assert outbox.Keys - (outbox - rows).Keys == rows;
      outbox := outbox - rows;
      return |rows|;
    }

    /** Index every ledger again, twin by twin, each over its existing queue. */
    method RebuildAll() returns (rebuilt: map<Id, Index>)
      ensures rebuilt.Keys == ledgers.Keys + lineage.Keys
      ensures forall t :: t in rebuilt ==> rebuilt[t] == RebuiltIndex(View(), t)
    {
      hide IndexFrom, OnlyIndexed;
      rebuilt := map[];
      var todo := ledgers.Keys + lineage.Keys;
      while todo != {}
        invariant rebuilt.Keys !! todo && rebuilt.Keys + todo == ledgers.Keys + lineage.Keys
        invariant forall t :: t in rebuilt ==> rebuilt[t] == RebuiltIndex(View(), t)
        decreases todo
      {
        var t :| t in todo;
        var ix := RebuildIndex(Ledger(View(), t), IndexOf(View(), t).queue);
        rebuilt, todo := rebuilt[t := ix], todo - {t};
      }
    }

    lemma NothingToRebuild(db: Db, t: Id)
      requires t !in db.ledgers && t !in db.lineage
      ensures RebuiltIndex(db, t) == EMPTY_INDEX
    {}

    lemma SoundIndexIsRebuilt(db: Db, t: Id)
      requires StoreSound(db)
      ensures RebuiltIndex(db, t) == IndexOf(db, t)
    {
      LedgerIsSound(db, t);
      RebuildIsIdentity(Ledger(db, t), IndexOf(db, t));
    }

    /** Drop all edges and index every ledger again; on a sound store nothing changes. */
    method MigrateDependencyIndex()
      modifies this`lineage
      ensures forall t :: IndexOf(View(), t) == RebuiltIndex(old(View()), t)
      ensures StoreSound(old(View())) ==> forall t :: IndexOf(View(), t) == IndexOf(old(View()), t)
    {
      hide RebuiltIndex, StoreSound;
      ghost var db := View();
      var rebuilt := RebuildAll();
      lineage := rebuilt;
      forall t
        ensures IndexOf(View(), t) == RebuiltIndex(db, t)
      {
        if t !in rebuilt {
          NothingToRebuild(db, t);
        }
      }
      if StoreSound(db) {
        forall t {
          SoundIndexIsRebuilt(db, t);
        }
      }
    }

    method MarkInvalidationProcessed(twin: Id, k: Impact, now: int) returns (ok: bool)
      modifies this`lineage
      ensures (IndexOf(View(), twin), ok) == MarkProcessed(IndexOf(old(View()), twin), k, now)
      ensures forall t :: t != twin ==> IndexOf(View(), t) == IndexOf(old(View()), t)
    {
      var (ix, hit) := MarkProcessed(IndexOf(View(), twin), k, now);
      if hit {
        lineage := lineage[twin := ix];
      }
      ok := hit;
    }
  }
}
