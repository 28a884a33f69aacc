/**
  The relay that moves committed events from the outbox to the broker, as one undisturbed pass. What
  other relays may do between its transactions is the subject of module Outbox.
 */
module Relay {
  import opened Types
  import opened Outbox
  import opened EventStore
  import opened Store
  import opened Subscriptions
  import opened Sync

  datatype RelayBatch = RelayBatch(claimed: nat, published: nat, failed: nat)

  /** A live queue after several publications; only those of its own twin reach it. */
  function PublishAll(live: Live, twin: Id, events: seq<Event>, capacity: nat): Live {
    if events == [] then live else
      var n := |events| - 1;
      var before := PublishAll(live, twin, events[..n], capacity);
      if events[n].req.twin == twin then Publish(before, events[n], capacity) else before
  }

  /** The publisher is not part of the model: `failures` names the events for which it raises. */
  function Failure(failures: map<RowKey, Error>, k: RowKey): Option<Error> {
    if k in failures then Some(failures[k]) else None
  }

  /** A leased row after its event was published at the given time, or after the publisher raised an error. */
  function Settled(r: Row, now: int, error: Option<Error>): Row {
    r.(publishedAt := if error.None? then Some(now) else None, owner := None, leaseUntil := None, lastError := error)
  }

  function SettleRows(t: Table, keys: seq<RowKey>, now: int, failures: map<RowKey, Error>): Table {
    map k | k in t :: if k in keys then Settled(t[k], now, Failure(failures, k)) else t[k]
  }

  function KeysOf(records: seq<OutboxRecord>): seq<RowKey> {
    seq(|records|, i requires 0 <= i < |records| => records[i].ticket.key)
  }

  /** The events of the given records that the publisher accepted, in order. */
  function Accepted(records: seq<OutboxRecord>, failures: map<RowKey, Error>): seq<Event> {
    if records == [] then [] else
      var n := |records| - 1;
      Accepted(records[..n], failures) + if records[n].ticket.key in failures then [] else [records[n].event]
  }

  lemma {:induction false} AttachedKeepsQueue(l: Live, twin: Id, events: seq<Event>, capacity: nat)
    requires PublishAll(l, twin, events, capacity).attached
    ensures PublishAll(l, twin, events, capacity).after == l.after && l.attached
    ensures events != [] ==>
      var before := PublishAll(l, twin, events[..|events| - 1], capacity);
      before.attached && before.queue <= PublishAll(l, twin, events, capacity).queue
  {
    if events != [] {
      AttachedKeepsQueue(l, twin, events[..|events| - 1], capacity);
    }
  }

  /** Whoever is still attached after several publications holds each event of its twin that it has not read. */
  lemma {:induction false} PublishedIsHeld(l: Live, twin: Id, events: seq<Event>, capacity: nat, i: nat)
    requires i < |events| && events[i].req.twin == twin && PublishAll(l, twin, events, capacity).attached
    ensures var after := PublishAll(l, twin, events, capacity);
            && after.after == l.after
            && (events[i].seqNo <= l.after || Subscriptions.Holds(after, events[i].seqNo))
  {
    var n := |events| - 1;
    var before, after := PublishAll(l, twin, events[..n], capacity), PublishAll(l, twin, events, capacity);
    AttachedKeepsQueue(l, twin, events, capacity);
    if i < n {
      PublishedIsHeld(l, twin, events[..n], capacity, i);
      if Subscriptions.Holds(before, events[i].seqNo) {
        var k :| 0 <= k < |before.queue| && before.queue[k].Delivery? && before.queue[k].event.seqNo == events[i].seqNo;
        assert after.queue[k] == before.queue[k];
      }
    } else if events[n].seqNo > l.after {
      assert after.queue[|after.queue| - 1] == Delivery(events[n]);
    }
  }

  class OutboxRelay {
    const store: SQLiteEventStore
    const broker: BoundedEventBroker
    const owner: Id
    const leaseSeconds: int

    constructor (store: SQLiteEventStore, broker: BoundedEventBroker, owner: Id, leaseSeconds: int)
      ensures this.store == store && this.broker == broker && this.owner == owner && this.leaseSeconds == leaseSeconds
    {
      this.store, this.broker, this.owner, this.leaseSeconds := store, broker, owner, leaseSeconds;
    }

    /** The row that was claimed is settled, and nothing else changes. */
    method Settle(ticket: Ticket, now: int, error: Option<Error>) returns (ok: bool)
      requires Outbox.Holds(store.outbox, ticket)
      modifies store`outbox
      ensures ok && store.outbox == old(store.outbox)[ticket.key :=
        old(store.outbox[ticket.key]).(publishedAt := if error.None? then Some(now) else None,
                                       owner := None, leaseUntil := None, lastError := error)]
    {
      if error.Some? {
        ok := store.ReleaseOutbox(ticket, error.value);
      } else {
        ok := store.MarkOutboxPublished(ticket, now);
      }
    }

    /** Offer one event, unless its publication fails, and settle its row. */
    method HandOver(record: OutboxRecord, now: int, error: Option<Error>) returns (ok: bool)
      requires Outbox.Holds(store.outbox, record.ticket) && broker.Valid()
      modifies store`outbox, broker, broker.subscriptions
      ensures ok && broker.Valid() && broker.subscriptions <= old(broker.subscriptions)
      ensures store.outbox == old(store.outbox)[record.ticket.key :=
        old(store.outbox[record.ticket.key]).(publishedAt := if error.None? then Some(now) else None,
                                              owner := None, leaseUntil := None, lastError := error)]
      ensures forall s :: s in old(broker.subscriptions) ==>
        broker.ViewOf(s) == PublishAll(old(broker.ViewOf(s)), s.twinId,
                                       if error.None? then [record.event] else [], broker.capacity)
    {
      hide Publish;
      assert [record.event][..0] == [];
      if error.None? {
        broker.PublishEvent(record.event);
      }
      ok := Settle(record.ticket, now, error);
    }

    lemma OneMoreSettled(rows: Table, records: seq<OutboxRecord>, now: int, failures: map<RowKey, Error>, i: nat)
      requires i < |records| && Outbox.Holds(rows, records[i].ticket)
      requires forall i, j :: 0 <= i < j < |records| ==> records[i].ticket.key != records[j].ticket.key
      ensures var t, k := SettleRows(rows, KeysOf(records)[..i], now, failures), records[i].ticket.key;
              && Outbox.Holds(t, records[i].ticket)
              && SettleRows(rows, KeysOf(records)[..i + 1], now, failures)
                 == t[k := Settled(t[k], now, Failure(failures, k))]
    {
      assert KeysOf(records)[..i + 1] == KeysOf(records)[..i] + [records[i].ticket.key];
      assert records[i].ticket.key !in KeysOf(records)[..i];
    }

    lemma AllSettled(rows: Table, records: seq<OutboxRecord>, now: int, failures: map<RowKey, Error>)
      ensures SettleRows(rows, KeysOf(records)[..0], now, failures) == rows
      ensures KeysOf(records)[..|records|] == KeysOf(records) && records[..|records|] == records
      ensures |KeysOf(records)| == |records|
    {}

    lemma {:induction false} DetachedStays(l: Live, twin: Id, events: seq<Event>, capacity: nat)
      requires !l.attached
      ensures PublishAll(l, twin, events, capacity) == l
    {
      if events != [] {
        DetachedStays(l, twin, events[..|events| - 1], capacity);
      }
    }

    lemma NothingAccepted(failures: map<RowKey, Error>)
      ensures Accepted([], failures) == []
      ensures forall l, twin, capacity: nat :: PublishAll(l, twin, [], capacity) == l
    {}

    lemma OneMoreAccepted(records: seq<OutboxRecord>, failures: map<RowKey, Error>, i: nat)
      requires i < |records|
      ensures Accepted(records[..i + 1], failures)
           == Accepted(records[..i], failures) + if records[i].ticket.key in failures then [] else [records[i].event]
    {
      assert records[..i + 1][..i] == records[..i];
    }

    lemma PublishedInTurn(l: Live, twin: Id, a: seq<Event>, b: seq<Event>, capacity: nat)
      requires |b| <= 1
      ensures PublishAll(l, twin, a + b, capacity) == PublishAll(PublishAll(l, twin, a, capacity), twin, b, capacity)
    {
      if b == [] {
        assert a + b == a;
      } else {
        assert (a + b)[..|a|] == a && b[..0] == [];
      }
    }

    /** Hand over the claimed records in order. */
    method HandOverAll(records: seq<OutboxRecord>, now: int, failures: map<RowKey, Error>) returns (batch: RelayBatch)
      requires broker.Valid()
      requires forall i :: 0 <= i < |records| ==> Outbox.Holds(store.outbox, records[i].ticket)
      requires forall i, j :: 0 <= i < j < |records| ==> records[i].ticket.key != records[j].ticket.key
      modifies store`outbox, broker, broker.subscriptions
      ensures broker.Valid() && batch.claimed == |records| == batch.published + batch.failed
      ensures store.outbox == SettleRows(old(store.outbox), KeysOf(records), now, failures)
      ensures forall s :: s in old(broker.subscriptions) ==>
        broker.ViewOf(s) == PublishAll(old(broker.ViewOf(s)), s.twinId, Accepted(records, failures), broker.capacity)
    {
      hide PublishAll, Accepted, SettleRows, KeysOf;
      ghost var before, rows := broker.subscriptions, store.outbox;
      NothingAccepted(failures);
      AllSettled(rows, records, now, failures);
      var published, failed := 0, 0;
      for i := 0 to |records|
        invariant broker.Valid() && published + failed == i
        invariant broker.subscriptions <= before
        invariant store.outbox == SettleRows(rows, KeysOf(records)[..i], now, failures)
        invariant forall s :: s in before ==>
          broker.ViewOf(s) == PublishAll(old(broker.ViewOf(s)), s.twinId, Accepted(records[..i], failures), broker.capacity)
      {
        var record := records[i];
        var error := Failure(failures, record.ticket.key);
        OneMoreAccepted(records, failures, i);
        ghost var offered, more := Accepted(records[..i], failures), if error.None? then [record.event] else [];
        ghost var attached := broker.subscriptions;
        label Offering:
        OneMoreSettled(rows, records, now, failures, i);
        var ok := HandOver(record, now, error);
        if !ok {
          assert false;  // the lease is still held: nothing ran in between
        }
        forall s | s in before
          ensures broker.ViewOf(s) == PublishAll(old(broker.ViewOf(s)), s.twinId, offered + more, broker.capacity)
        {
          PublishedInTurn(old(broker.ViewOf(s)), s.twinId, offered, more, broker.capacity);
          if s !in attached {
            assert broker.ViewOf(s) == old@Offering(broker.ViewOf(s));
            DetachedStays(broker.ViewOf(s), s.twinId, more, broker.capacity);
          }
        }
        if error.None? {
          published := published + 1;
        } else {
          failed := failed + 1;
        }
      }
      AllSettled(rows, records, now, failures);
      return RelayBatch(|records|, published, failed);
    }

    lemma NothingClaimed(rows: Table, until: int, now: int, failures: map<RowKey, Error>)
      ensures ClaimRows(rows, [], owner, until) == rows == SettleRows(rows, [], now, failures)
    {}

    /** The tickets of a claim hold, each for its own row. */
    lemma ClaimedHolds(t: Table, now: int, limit: int, selected: seq<RowKey>, until: int)
      requires IsSelection(t, now, limit, selected)
      ensures forall i, j :: 0 <= i < j < |selected| ==> selected[i] != selected[j]
      ensures forall k :: k in selected ==> k in t
      ensures forall i :: 0 <= i < |selected| ==>
        && TicketsFor(t, selected, owner)[i].key == selected[i]
        && Outbox.Holds(ClaimRows(t, selected, owner, until), TicketsFor(t, selected, owner)[i])
    {
      forall i, j | 0 <= i < j < |selected|
        ensures selected[i] != selected[j]
      {
        assert Before(t, selected[i], selected[j]);
      }
    }

    /**
      Claim the oldest pending rows, offer their events to the broker in that order, and mark or
      release each: every claimed row is settled, every other row stays, and every live queue
      receives exactly the accepted events of its twin.
     */
    method Drain(limit: int, now: int, markedAt: int, failures: map<RowKey, Error>)
      returns (r: Result<RelayBatch>, ghost selected: seq<RowKey>, ghost records: seq<OutboxRecord>)
      requires StoreSound(store.View()) && broker.Valid()
      modifies store`outbox, broker, broker.subscriptions
      ensures broker.Valid() && |records| == |selected|
      ensures r.Err? <==> owner == NO_ID || (limit > 0 && leaseSeconds < 1)
      ensures r.Err? ==> r.error == InvalidValue && selected == []
      ensures r.Ok? ==> r.value.claimed == |selected| == r.value.published + r.value.failed
      ensures r.Ok? && limit > 0 ==> IsSelection(old(store.outbox), now, limit, selected)
      ensures limit <= 0 ==> selected == []
      ensures forall i :: 0 <= i < |selected| ==>
        && records[i].ticket.key == selected[i] && 1 <= selected[i].seqNo <= |Ledger(store.View(), selected[i].twin)|
        && records[i].event == Ledger(store.View(), selected[i].twin)[selected[i].seqNo - 1]
      ensures store.outbox == SettleRows(ClaimRows(old(store.outbox), selected, owner, now + leaseSeconds),
                                         selected, markedAt, failures)
      ensures forall s :: s in old(broker.subscriptions) ==>
        broker.ViewOf(s) == PublishAll(old(broker.ViewOf(s)), s.twinId, Accepted(records, failures), broker.capacity)
    {
      hide StoreSound, PublishAll, Accepted, IsSelection, ClaimRows, TicketsFor, SettleRows, Outbox.Holds;
      ghost var rows := store.outbox;
      NothingAccepted(failures);
      NothingClaimed(rows, now + leaseSeconds, markedAt, failures);
      var claimed;
      ghost var step;
      claimed, step := store.ClaimOutbox(owner, limit, leaseSeconds, now);
      if claimed.Err? {
        return Err(claimed.error), [], [];
      }
      records := claimed.value;
      if step.Some? {
        selected := step.value.selected;
        ClaimedHolds(rows, now, limit, selected, now + leaseSeconds);
      } else {
        selected := [];
      }
      var batch := HandOverAll(claimed.value, markedAt, failures);
      assert KeysOf(records) == selected;
      return Ok(batch), selected, records;
    }
  }
}
