/**
  The objects of the subscription protocol: the bounded live queue, the broker that fans out to
  many of them, the durable subscription that a client iterates, and the relay that drains the
  outbox into the broker. Their methods are proved against module Subscriptions.
 */
module Sync {
  import opened Types
  import opened Chain
  import opened EventStore
  import opened Store
  import opened Subscriptions

  class Subscription {
    const twinId: Id
    const capacity: nat
    var after: nat
    var queue: seq<Item>
    var closed: bool
    var slow: bool

    constructor (twinId: Id, after: nat, capacity: nat)
      ensures View(true) == NewLive(after) && this.twinId == twinId && this.capacity == capacity
    {
      this.twinId, this.capacity, this.after := twinId, capacity, after;
      queue, closed, slow := [], false, false;
    }

    function View(attached: bool): Live
      reads this
    {
      Live(after, queue, attached, closed, slow)
    }

    /** Close once, making room for the sentinel if the queue is full. */
    method CloseQueue(because: bool)
      requires capacity >= 1
      modifies this
      ensures View(false) == Close(old(View(false)), because, capacity)
    {
      if closed {
        return;
      }
      closed, slow := true, because;
      if |queue| >= capacity {
        queue := queue[1..];
      }
      queue := queue + [Sentinel];
    }

    /** The next item, unless the queue is closed or empty. A reader that waits skips the closed check. */
    method Get(waiting: bool) returns (item: Option<Event>, out: Outcome)
      modifies this
      ensures forall attached :: Got(old(View(attached)), View(attached), waiting, item, out)
    {
      if closed && !waiting {
        return None, if slow then SlowConsumer else Stopped;
      }
      if queue == [] {
        return None, Blocked;
      }
      var first := queue[0];
      queue := queue[1..];
      if first.Sentinel? {
        closed := true;
        return None, if slow then SlowConsumer else Stopped;
      }
      after := first.event.seqNo;
      return Some(first.event), Delivered(first.event);
    }
  }

  class BoundedEventBroker {
    const capacity: nat
    var subscriptions: set<Subscription>

    constructor (capacity: nat)
      requires capacity >= 1
      ensures Valid() && subscriptions == {} && this.capacity == capacity
    {
      this.capacity := capacity;
      subscriptions := {};
    }

    ghost predicate Valid()
      reads this, subscriptions
    {
      capacity >= 1 && forall s :: s in subscriptions ==> s.capacity == capacity && !s.closed
    }

    function ViewOf(s: Subscription): Live
      reads this, s
    {
      s.View(s in subscriptions)
    }

    method Subscribe(twinId: Id, after: nat) returns (s: Subscription)
      requires Valid()
      modifies this
      ensures Valid() && fresh(s) && subscriptions == old(subscriptions) + {s}
      ensures s.twinId == twinId && s.capacity == capacity && ViewOf(s) == NewLive(after)
    {
      s := new Subscription(twinId, after, capacity);
      subscriptions := subscriptions + {s};
    }

    method Unsubscribe(s: Subscription)
      requires Valid() && s.capacity == capacity
      modifies this, s
      ensures Valid() && subscriptions == old(subscriptions) - {s}
      ensures ViewOf(s) == Close(old(ViewOf(s)).(attached := false), false, capacity)
    {
      subscriptions := subscriptions - {s};
      s.CloseQueue(false);
    }

    /** Put an event into the queues of its twin that have room; report those that have none. */
    method Offer(e: Event) returns (stale: set<Subscription>)
      requires Valid()
      modifies subscriptions
      ensures Valid() && stale <= subscriptions
      ensures forall s :: s in subscriptions ==>
        if s in stale then
          && s.View(true) == old(s.View(true)) && s.twinId == e.req.twin && e.seqNo > s.after && |s.queue| >= capacity
        else
          s.View(true) == if s.twinId == e.req.twin then Publish(old(s.View(true)), e, capacity) else old(s.View(true))
    {
      stale := {};
      var todo := subscriptions;
      while todo != {}
        invariant todo <= subscriptions && stale <= subscriptions - todo && Valid()
        invariant forall s :: s in todo ==> s.View(true) == old(s.View(true))
        invariant forall s :: s in subscriptions - todo - stale ==>
          s.View(true) == if s.twinId == e.req.twin then Publish(old(s.View(true)), e, capacity) else old(s.View(true))
        invariant forall s :: s in stale ==>
          && s.View(true) == old(s.View(true)) && s.twinId == e.req.twin
          && e.seqNo > s.after && |s.queue| >= capacity
        decreases todo
      {
        var s :| s in todo;
        todo := todo - {s};
        if s.twinId == e.req.twin && e.seqNo > s.after {
          if |s.queue| < capacity {
            s.queue := s.queue + [Delivery(e)];
          } else {
            stale := stale + {s};
          }
        }
      }
    }

    /** Remove the given subscriptions and close them as too slow. */
    method CutOff(stale: set<Subscription>)
      requires Valid() && stale <= subscriptions
      modifies this, stale
      ensures Valid() && subscriptions == old(subscriptions) - stale
      ensures forall s :: s in stale ==> s.View(false) == Close(old(s.View(true)), true, capacity)
    {
      var todo := stale;
      while todo != {}
        invariant todo <= stale && subscriptions == old(subscriptions) - (stale - todo)
        invariant forall s :: s in subscriptions ==> s.capacity == capacity && s.View(true) == old(s.View(true))
        invariant forall s :: s in stale - todo ==> s.View(false) == Close(old(s.View(true)), true, capacity)
        decreases todo
      {
        var s :| s in todo;
        todo := todo - {s};
        subscriptions := subscriptions - {s};
        s.CloseQueue(true);
      }
    }

    /** Offer an event to every subscription of its twin; those whose queue is full are cut off. */
    method PublishEvent(e: Event)
      requires Valid()
      modifies this, subscriptions
      ensures Valid() && subscriptions <= old(subscriptions)
      ensures forall s :: s in old(subscriptions) ==>
        ViewOf(s) == if s.twinId == e.req.twin then Publish(old(ViewOf(s)), e, capacity) else old(ViewOf(s))
    {
      var stale := Offer(e);
      CutOff(stale);
    }
  }

  class DurableSubscription {
    const twinId: Id
    const store: SQLiteEventStore
    const broker: BoundedEventBroker
    const live: Subscription
    const filter: Filter
    const limits: Limits
    var position: Position
    var acknowledged: Position
    var replayHead: nat
    var buffer: seq<Event>
    var deferred: Option<Event>
    var outstanding: seq<Position>
    var closed: bool
    var waiting: bool

    function View(): Session
      reads this
    {
      Session(position, acknowledged, replayHead, buffer, deferred, outstanding, closed, waiting)
    }

    function Events(): seq<Event>
      reads store
    {
      Ledger(store.View(), twinId)
    }

    ghost predicate Wired()
      reads this, store, broker, broker.subscriptions, live
    {
      && ValidLimits(limits) && broker.Valid() && limits.capacity == broker.capacity == live.capacity
      && live.twinId == twinId && LedgerSound(twinId, Events())
    }

    ghost predicate Valid()
      reads this, store, broker, broker.subscriptions, live
    {
      Wired() && SessionInv(filter, limits, Events(), View(), broker.ViewOf(live))
    }

    /** The constructor of an accepted session; `Open` below makes the checks. */
    constructor (twinId: Id, store: SQLiteEventStore, broker: BoundedEventBroker, live: Subscription,
                 filter: Filter, limits: Limits, s: Session)
      ensures View() == s && this.twinId == twinId && this.store == store && this.broker == broker
      ensures this.live == live && this.filter == filter && this.limits == limits
    {
      this.twinId, this.store, this.broker, this.live := twinId, store, broker, live;
      this.filter, this.limits := filter, limits;
      position, acknowledged, replayHead, buffer := s.position, s.acknowledged, s.replayHead, s.buffer;
      deferred, outstanding, closed, waiting := s.deferred, s.outstanding, s.closed, s.waiting;
    }

    /** The continuity and hash check that every event passes before the position moves. */
    method AdvanceVerified(e: Event) returns (ok: bool)
      modifies this`position
      ensures ok == (e.req.twin == twinId && e.seqNo == old(position).seqNo + 1 && Verifies(e, old(position).hash))
      ensures position == if ok then Position(e.seqNo, e.hash) else old(position)
    {
      ok := e.req.twin == twinId && e.seqNo == position.seqNo + 1 && Verifies(e, position.hash);
      if ok {
        position := Position(e.seqNo, e.hash);
      }
    }

    lemma NextVerifies(events: seq<Event>, p: Position)
      requires LedgerSound(twinId, events) && p.seqNo < |events| && p == At(events, p.seqNo)
      ensures var e := events[p.seqNo];
              e.req.twin == twinId && e.seqNo == p.seqNo + 1 && Verifies(e, p.hash)
              && Position(e.seqNo, e.hash) == At(events, p.seqNo + 1)
    {
      assert LinkHolds(events, p.seqNo) && events[p.seqNo] in events;
    }

    lemma NumberedLedger()
      requires LedgerSound(twinId, Events())
      ensures Numbered(Events())
    {
      ChainIsNumbered(Events());
    }

    /** Read one page of the ledger into the replay buffer. */
    method LoadPage()
      requires Wired() && Placed(Events(), View(), broker.ViewOf(live))
      requires buffer == [] && position.seqNo < replayHead && !waiting
      modifies this`buffer
      ensures Placed(Events(), View(), broker.ViewOf(live)) && buffer != []
    {
      hide LedgerSound, Matching, QueueInLedger, WellClosed;
      var ledger := Events();
      NumberedLedger();
      MatchingIsSlice(ledger, position.seqNo, Some(replayHead), None);
      var batch := Load(ledger, position.seqNo, Some(replayHead), None, Some(limits.pageSize));
      if batch == [] {
        assert false;  // the ledger reaches the captured head, so a page is never empty
      }
      assert batch == ledger[position.seqNo..position.seqNo + |batch|];
      buffer := buffer + batch;
      assert buffer == batch;
    }

    /** The next event of the replay buffer. */
    method TakeBuffered() returns (e: Event)
      requires Wired() && Placed(Events(), View(), broker.ViewOf(live)) && buffer != [] && !waiting
      modifies this`buffer, this`position
      ensures Placed(Events(), View(), broker.ViewOf(live))
      ensures position.seqNo == old(position).seqNo + 1 && e == Events()[position.seqNo - 1]
    {
      hide LedgerSound, QueueInLedger, WellClosed;
      e := buffer[0];
      assert e == Events()[position.seqNo];
      NextVerifies(Events(), position);
      buffer := buffer[1..];
      var ok := AdvanceVerified(e);
      assert ok;
    }

    /** The next item of the live queue, or why there is none. */
    method ReadLive() returns (item: Option<Event>, out: Outcome)
      requires Wired() && Placed(Events(), View(), broker.ViewOf(live))
      requires buffer == [] && replayHead <= position.seqNo && deferred.None?
      modifies this`closed, this`waiting, live
      ensures Wired()
      ensures item.None? ==>
        && Placed(Events(), View(), broker.ViewOf(live))
        && (out.Blocked? || out.Stopped? || out.SlowConsumer?)
        && (out.Blocked? <==> waiting) && (out.Blocked? ==> live.queue == [])
        && (live in broker.subscriptions ==> Retained(Horizon(View()), old(broker.ViewOf(live)), broker.ViewOf(live)))
      ensures item.Some? ==>
        && !waiting && InLedger(Events(), item.value)
        && QueueInLedger(Events(), broker.ViewOf(live)) && WellClosed(broker.ViewOf(live))
        && live.after == item.value.seqNo && |live.queue| < |old(live.queue)|
        && Retained(Max(Horizon(View()), item.value.seqNo), old(broker.ViewOf(live)), broker.ViewOf(live))
    {
      hide LedgerSound, QueueInLedger, WellClosed, Retained, Got;
      ghost var before := broker.ViewOf(live);
      item, out := live.Get(waiting);
      assert Got(before, live.View(before.attached), waiting, item, out);
      GotKeeps(Events(), before, live.View(before.attached), waiting, item, out,
               if item.None? then Horizon(View()) else Max(Horizon(View()), item.value.seqNo));
      waiting := item.None? && out.Blocked?;
      if item.None? && out.SlowConsumer? {
        closed := true;
      }
    }

    lemma NothingRead(before: Live)
      ensures forall h: nat :: Retained(h, before, before)
    {}

    lemma RetainedTwice(h: nat, k: nat, a: Live, b: Live, c: Live)
      requires h <= k && Retained(h, a, b) && Retained(k, b, c)
      ensures Retained(k, a, c)
    {}

    /**
      The live side of one turn: an event that was read is dropped as a duplicate, delivered if it is
      the next one, or, after a gap, turned into more replay. `again` asks for another turn.
     */
    method TakeLive() returns (e: Option<Event>, again: bool, out: Outcome)
      requires Wired() && Placed(Events(), View(), broker.ViewOf(live))
      requires buffer == [] && replayHead <= position.seqNo
      modifies this`position, this`replayHead, this`deferred, this`closed, this`waiting, live
      ensures Wired() && Placed(Events(), View(), broker.ViewOf(live)) && old(replayHead) <= replayHead
      ensures live in broker.subscriptions ==>
        Retained(Horizon(View()), old(broker.ViewOf(live)), broker.ViewOf(live))
      ensures e.Some? ==>
        && !again && !waiting
        && position.seqNo == old(position).seqNo + 1 <= |Events()| && e.value == Events()[position.seqNo - 1]
      ensures e.None? ==> position == old(position)
      ensures e.None? && !again ==>
        && (out.Blocked? || out.Stopped? || out.SlowConsumer?)
        && (out.Blocked? <==> waiting) && (out.Blocked? ==> live.queue == [])
      ensures again ==>
        && !waiting && e.None?
        && (|live.queue| < |old(live.queue)|
            || (|live.queue| == |old(live.queue)| && old(deferred).Some? && deferred.None?))
    {
      hide LedgerSound, QueueInLedger, WellClosed, Retained;
      e, again, out := None, false, Blocked;
      var event: Event;
      if deferred.Some? {
        event := deferred.value;
        deferred := None;
        NothingRead(broker.ViewOf(live));
      } else {
        var item, got := ReadLive();
        if item.None? {
          return None, false, got;
        }
        event := item.value;
      }
      if event.seqNo <= position.seqNo {
        again := true;
      } else if event.seqNo > position.seqNo + 1 {
        var head := store.Head(twinId);
        if head.0 < event.seqNo {
          assert false;  // only committed events are broadcast
        }
        deferred := Some(event);
        replayHead := event.seqNo;
        again := true;
      } else {
        NextVerifies(Events(), position);
        var ok := AdvanceVerified(event);
        assert ok;
        e := Some(event);
      }
    }

    /**
      The next event of the stream, from the replay buffer, the ledger or the live queue. It ends on
      every queue, and the position moves by exactly one event or not at all.
     */
    method NextCandidate() returns (e: Option<Event>, out: Outcome)
      requires Wired() && Placed(Events(), View(), broker.ViewOf(live))
      modifies this`position, this`replayHead, this`buffer, this`deferred, this`closed, this`waiting, live
      ensures Wired() && Placed(Events(), View(), broker.ViewOf(live)) && old(replayHead) <= replayHead
      ensures live in broker.subscriptions ==>
        Retained(Horizon(View()), old(broker.ViewOf(live)), broker.ViewOf(live))
      ensures e.Some? ==>
        && !waiting
        && position.seqNo == old(position).seqNo + 1 <= |Events()| && e.value == Events()[position.seqNo - 1]
      ensures e.None? ==>
        && position == old(position)
        && (out.Blocked? || out.Stopped? || out.SlowConsumer?)
        && (out.Blocked? <==> waiting) && (out.Blocked? ==> live.queue == [])
    {
      hide LedgerSound, QueueInLedger, WellClosed, Retained;
      ghost var before := broker.ViewOf(live);
      NothingRead(before);
      while true
        invariant Wired() && Placed(Events(), View(), broker.ViewOf(live))
        invariant position == old(position) && old(replayHead) <= replayHead
        invariant live in broker.subscriptions ==> Retained(Horizon(View()), before, broker.ViewOf(live))
        decreases |live.queue|, if deferred.Some? then 1 else 0, if buffer == [] then 1 else 0
      {
        ghost var h := Horizon(View());
        ghost var middle := broker.ViewOf(live);
        if buffer != [] {
          var b := TakeBuffered();
          if live in broker.subscriptions {
            NothingRead(middle);
            RetainedTwice(h, Horizon(View()), before, middle, middle);
          }
          return Some(b), Blocked;
        }
        if position.seqNo < replayHead {
          LoadPage();
          continue;
        }
        var taken, again, got := TakeLive();
        if live in broker.subscriptions {
          RetainedTwice(h, Horizon(View()), before, middle, broker.ViewOf(live));
        }
        if !again {
          return taken, got;
        }
      }
    }

    lemma PlacedFacts(s: Session, l: Live)
      requires Placed(Events(), s, l)
      ensures s.position.seqNo <= |Events()| && s.position == At(Events(), s.position.seqNo)
      ensures forall p, ps :: Placed(Events(), s.(acknowledged := p, outstanding := ps), l)
    {}

    /** One turn of the iterator: an excluded event is skipped (no outcome), others are handed out. */
    method Turn() returns (out: Option<Outcome>)
      requires Wired() && Placed(Events(), View(), broker.ViewOf(live))
      modifies this`position, this`acknowledged, this`replayHead, this`buffer, this`deferred, this`outstanding,
               this`closed, this`waiting, live
      ensures Wired() && Placed(Events(), View(), broker.ViewOf(live)) && old(replayHead) <= replayHead
      ensures live in broker.subscriptions ==>
        Retained(Horizon(View()), old(broker.ViewOf(live)), broker.ViewOf(live))
      ensures out.None? || out.value.Delivered? ==>
        && !waiting && position.seqNo == old(position).seqNo + 1 <= |Events()|
        && (Passes(filter, Events()[position.seqNo - 1]) <==> out.Some?)
      ensures out.None? ==>
        && outstanding == old(outstanding)
        && acknowledged == if outstanding == [] then At(Events(), position.seqNo) else old(acknowledged)
      ensures out.Some? ==> acknowledged == old(acknowledged)
      ensures out.Some? && out.value.Delivered? ==>
        && out.value.event == Events()[position.seqNo - 1]
        && outstanding == old(outstanding) + [Position(out.value.event.seqNo, out.value.event.hash)]
      ensures out.Some? && !out.value.Delivered? ==>
        && position == old(position) && outstanding == old(outstanding)
        && (out.value.Blocked? || out.value.Stopped? || out.value.SlowConsumer?)
        && (out.value.Blocked? <==> waiting) && (out.value.Blocked? ==> live.queue == [])
    {
      hide LedgerSound, Retained, Passes, Placed;
      var e, got := NextCandidate();
      PlacedFacts(View(), broker.ViewOf(live));
      if e.None? {
        return Some(got);
      }
      if !Passes(filter, e.value) {
        if outstanding == [] {
          acknowledged := position;
        }
        return None;
      }
      outstanding := outstanding + [Position(e.value.seqNo, e.value.hash)];
      return Some(Delivered(e.value));
    }

    lemma FilteredFrom(a: nat, b: nat)
      requires a <= b <= |Events()|
      ensures a == b ==> Filtered(filter, Events()[a..b]) == []
      ensures b < |Events()| ==>
        Filtered(filter, Events()[a..b + 1])
        == Filtered(filter, Events()[a..b]) + if Passes(filter, Events()[b]) then [Events()[b]] else []
    {
      if a == b {
        assert Events()[a..b] == [];
      }
      if b < |Events()| {
        FilteredRange(filter, Events(), a, b, b + 1);
        FilteredOne(filter, Events(), b);
      }
    }

    /** After turns that skipped everything from s to m, one turn that hands out or stops is one step from s to t. */
    lemma LastTurn(s: Session, l: Live, m: Session, t: Session, k: Live, out: Outcome)
      requires s.position.seqNo <= m.position.seqNo <= |Events()| && s.replayHead <= m.replayHead <= t.replayHead
      requires Filtered(filter, Events()[s.position.seqNo..m.position.seqNo]) == [] && m.outstanding == s.outstanding
      requires t.acknowledged == m.acknowledged
            == if s.outstanding == [] && m.position.seqNo > s.position.seqNo then At(Events(), m.position.seqNo)
               else s.acknowledged
      requires out.Delivered? ==>
        && !t.waiting && t.position.seqNo == m.position.seqNo + 1 <= |Events()|
        && Passes(filter, Events()[m.position.seqNo]) && out.event == Events()[m.position.seqNo]
        && t.outstanding == m.outstanding + [Position(out.event.seqNo, out.event.hash)]
      requires !out.Delivered? ==>
        && t.position == m.position && t.outstanding == m.outstanding
        && (out.Blocked? <==> t.waiting) && (out.Blocked? ==> k.queue == [])
      requires k.attached ==> l.attached && Retained(Horizon(t), l, k)
      ensures Consumed(filter, Events(), s, l, t, k, out)
    {
      hide Filtered, Passes, Retained;
      FilteredFrom(s.position.seqNo, m.position.seqNo);
    }

    /** Skip what the filter excludes, and stop at the first event that it passes, if there is one. */
    method Advance() returns (out: Outcome)
      requires Wired() && Placed(Events(), View(), broker.ViewOf(live))
      modifies this`position, this`acknowledged, this`replayHead, this`buffer, this`deferred, this`outstanding,
               this`closed, this`waiting, live
      ensures Wired() && Placed(Events(), View(), broker.ViewOf(live))
      ensures !out.Corrupt? && !out.WindowFull?
      ensures Consumed(filter, Events(), old(View()), old(broker.ViewOf(live)), View(), broker.ViewOf(live), out)
    {
      hide LedgerSound, Retained, Filtered, Passes, Placed, Consumed;
      ghost var before := broker.ViewOf(live);
      ghost var start := position.seqNo;
      NothingRead(before);
      PlacedFacts(View(), before);
      FilteredFrom(start, start);
      while true
        invariant Wired() && Placed(Events(), View(), broker.ViewOf(live))
        invariant start <= position.seqNo <= |Events()| && old(replayHead) <= replayHead
        invariant Filtered(filter, Events()[start..position.seqNo]) == []
        invariant outstanding == old(outstanding)
        invariant acknowledged ==
          if outstanding == [] && position.seqNo > start then At(Events(), position.seqNo) else old(acknowledged)
        invariant live in broker.subscriptions ==> Retained(Horizon(View()), before, broker.ViewOf(live))
        decreases |Events()| - position.seqNo
      {
        ghost var middle, queue := View(), broker.ViewOf(live);
        FilteredFrom(start, position.seqNo);
        var turn := Turn();
        if live in broker.subscriptions {
          RetainedTwice(Horizon(middle), Horizon(View()), before, queue, broker.ViewOf(live));
        }
        if turn.Some? {
          LastTurn(old(View()), before, middle, View(), broker.ViewOf(live), turn.value);
          return turn.value;
        }
      }
    }

    lemma NothingConsumed(s: Session, l: Live, t: Session, k: Live, out: Outcome)
      requires s.position.seqNo <= |Events()| && !s.waiting && t == s.(closed := true)
      requires out.Stopped? || out.WindowFull?
      requires k == l || !k.attached
      ensures Consumed(filter, Events(), s, l, t, k, out)
    {
      NothingRead(l);
      FilteredFrom(s.position.seqNo, s.position.seqNo);
    }

    lemma InWindow(s: Session)
      requires Windowed(filter, limits, Events(), s)
      ensures s.position.seqNo <= |Events()|
    {}

    /** The rest of a call, also when a reader that waited on the live queue is woken. */
    method Resume() returns (out: Outcome)
      requires Valid() && |outstanding| < limits.maxInFlight
      modifies this`position, this`acknowledged, this`replayHead, this`buffer, this`deferred, this`outstanding,
               this`closed, this`waiting, live
      ensures Valid() && !out.Corrupt? && !out.WindowFull?
      ensures Consumed(filter, Events(), old(View()), old(broker.ViewOf(live)), View(), broker.ViewOf(live), out)
    {
      hide LedgerSound, Consumed, Placed, Windowed;
      ghost var s, l := View(), broker.ViewOf(live);
      out := Advance();
      NumberedLedger();
      ConsumedKeeps(filter, limits, Events(), s, l, View(), broker.ViewOf(live), out);
    }

    lemma ClosedStays(s: Session, l: Live)
      requires SessionInv(filter, limits, Events(), s, l)
      ensures SessionInv(filter, limits, Events(), s.(closed := true), l.(attached := false))
      ensures SessionInv(filter, limits, Events(), s.(closed := true), l)
    {}

    /** Close once and leave the broker. */
    method Aclose()
      requires Valid()
      modifies this`closed, live, broker
      ensures Valid() && View() == old(View()).(closed := true)
      ensures old(closed) ==> broker.ViewOf(live) == old(broker.ViewOf(live))
      ensures !old(closed) ==>
        && broker.subscriptions == old(broker.subscriptions) - {live}
        && broker.ViewOf(live) == Close(old(broker.ViewOf(live)).(attached := false), false, limits.capacity)
    {
      hide LedgerSound, Placed, Windowed, Close, Filtered;
      if closed {
        return;
      }
      closed := true;
      ghost var s, l := View(), broker.ViewOf(live);
      ClosedStays(old(View()), l);
      broker.Unsubscribe(live);
      CloseKeeps(filter, limits, Events(), s, l.(attached := false), false);
    }

    /**
      One call of the iterator: it ends on a closed subscription, it closes a subscription whose
      window is full, and otherwise it hands out the next matching event or waits for one.
     */
    method Next() returns (out: Outcome)
      requires Valid() && !waiting
      modifies this`position, this`acknowledged, this`replayHead, this`buffer, this`deferred, this`outstanding,
               this`closed, this`waiting, live, broker
      ensures Valid() && !out.Corrupt?
      ensures Consumed(filter, Events(), old(View()), old(broker.ViewOf(live)), View(), broker.ViewOf(live), out)
      ensures old(closed) ==> out.Stopped? && View() == old(View())
      ensures !old(closed) && |old(outstanding)| >= limits.maxInFlight ==>
        && out.WindowFull? && View() == old(View()).(closed := true)
        && broker.subscriptions == old(broker.subscriptions) - {live}
      ensures |old(outstanding)| < limits.maxInFlight ==>
        && !out.WindowFull? && broker.subscriptions == old(broker.subscriptions)
    {
      hide LedgerSound, Consumed, Placed, Windowed;
      ghost var s, l := View(), broker.ViewOf(live);
      InWindow(s);
      if closed {
        out := Stopped;
        NothingConsumed(s, l, View(), l, out);
        return;
      }
      if |outstanding| >= limits.maxInFlight {
        Aclose();
        out := WindowFull;
        NothingConsumed(s, l, View(), broker.ViewOf(live), out);
        return;
      }
      out := Resume();
    }

    lemma WindowMoves(s: Session, t: Session, l: Live)
      requires Placed(Events(), s, l) && t == s.(outstanding := t.outstanding, acknowledged := t.acknowledged)
      ensures Placed(Events(), t, l)
    {}

    /** Cumulative acknowledgement, popping the window from its front. */
    method AcknowledgeUpTo(twin: Id, p: Position) returns (r: Result<Position>)
      requires Valid()
      modifies this`outstanding, this`acknowledged
      ensures Valid() && (twin != twinId ==> r == Err(ProtocolViolation) && View() == old(View()))
      ensures twin == twinId ==>
        && (View(), r) == Acknowledge(old(View()), p)
        && (r.Ok? <==> p == old(acknowledged) || p in old(outstanding))
    {
      hide LedgerSound, Placed, Windowed, FindPosition;
      ghost var s := View();
      NumberedLedger();
      AcknowledgeKeeps(filter, limits, Events(), s, p);
      if twin != twinId {
        return Err(ProtocolViolation);
      }
      if p.seqNo < acknowledged.seqNo {
        return Err(ProtocolViolation);
      }
      if p.seqNo == acknowledged.seqNo {
        return if p.hash == acknowledged.hash then Ok(acknowledged) else Err(ProtocolViolation);
      }
      var matched := FindPosition(outstanding, p.seqNo);
      if matched.None? || matched.value.hash != p.hash {
        return Err(ProtocolViolation);
      }
      while outstanding != [] && outstanding[0].seqNo <= p.seqNo
        invariant View() == s.(outstanding := outstanding)
        invariant DropThrough(outstanding, p.seqNo) == DropThrough(s.outstanding, p.seqNo)
        decreases |outstanding|
      {
        outstanding := outstanding[1..];
      }
      acknowledged := p;
      WindowMoves(s, View(), broker.ViewOf(live));
      return Ok(p);
    }

    /**
      What other actors do between two steps of the consumer - append to the ledger, publish a
      committed event late, again or out of order - leaves the session valid.
     */
    twostate lemma OthersKeepValid(published: Option<nat>)
      requires old(Valid()) && Wired() && View() == old(View()) && old(Events()) <= Events()
      requires match published
               case None => broker.ViewOf(live) == old(broker.ViewOf(live))
               case Some(n) =>
                 && 1 <= n <= |Events()|
                 && broker.ViewOf(live) == Publish(old(broker.ViewOf(live)), Events()[n - 1], limits.capacity)
      ensures Valid()
    {
      hide Filtered, LedgerSound, Publish;
      LedgerGrows(filter, limits, old(Events()), Events(), View(), old(broker.ViewOf(live)));
      if published.Some? {
        NumberedLedger();
        PublishKeeps(filter, limits, Events(), View(), old(broker.ViewOf(live)), published.value, {});
      }
    }

    static lemma NewLiveIsSound(ledger: seq<Event>, after: nat)
      ensures QueueInLedger(ledger, NewLive(after)) && WellClosed(NewLive(after))
    {}

    /** A cursor must lie within the head and name the event that the ledger holds there. */
    static method CheckCursor(store: SQLiteEventStore, twinId: Id, start: Position, head: int) returns (ok: bool)
      requires StoreSound(store.View()) && (start.seqNo == 0 ==> start.hash == NoHash)
      requires head == |Ledger(store.View(), twinId)|
      ensures ok <==> start.seqNo <= head && start == At(Ledger(store.View(), twinId), start.seqNo)
    {
      hide LedgerSound, StoreSound;
      LedgerIsSound(store.View(), twinId);
      var events := Ledger(store.View(), twinId);
      if start.seqNo > head {
        return false;
      }
      if start.seqNo > 0 {
        MatchingIsSlice(events, start.seqNo - 1, Some(start.seqNo), None);
        var found := Load(events, start.seqNo - 1, Some(start.seqNo), None, Some(1));
        return found != [] && found[0].hash == start.hash;
      }
      return true;
    }

    /**
      Subscribe before reading the head, check the cursor against the chain, and start the session.
      A cursor is accepted exactly if it is a place in this chain; a refused one leaves no subscription.
     */
    static method Open(store: SQLiteEventStore, broker: BoundedEventBroker, twinId: Id, start: Position,
                       filter: Filter, limits: Limits) returns (r: Result<DurableSubscription>)
      requires broker.Valid() && ValidLimits(limits) && limits.capacity == broker.capacity
      requires StoreSound(store.View()) && (start.seqNo == 0 ==> start.hash == NoHash)
      modifies broker
      ensures broker.Valid()
      ensures r.Ok? <==>
        start.seqNo <= |Ledger(store.View(), twinId)| && start == At(Ledger(store.View(), twinId), start.seqNo)
      ensures r.Err? ==> r.error == ResumeCursorRejected && broker.subscriptions == old(broker.subscriptions)
      ensures r.Ok? ==>
        && fresh(r.value) && fresh(r.value.live) && r.value.Valid()
        && r.value.twinId == twinId && r.value.store == store && r.value.broker == broker
        && r.value.filter == filter && r.value.limits == limits
        && Ok(r.value.View()) == OpenSession(Ledger(store.View(), twinId), start)
        && broker.ViewOf(r.value.live) == NewLive(start.seqNo)
        && broker.subscriptions == old(broker.subscriptions) + {r.value.live}
    {
      hide LedgerSound, StoreSound, Placed, Windowed, QueueInLedger, WellClosed, Close;
      var live := broker.Subscribe(twinId, start.seqNo);
      NewLiveIsSound(Ledger(store.View(), twinId), start.seqNo);
      LedgerIsSound(store.View(), twinId);
      var (head, _) := store.Head(twinId);
      var accepted := CheckCursor(store, twinId, start, head);
      if !accepted {
        broker.Unsubscribe(live);
        return Err(ResumeCursorRejected);
      }
      var s := Session(start, start, head, [], None, [], false, false);
      OpenEstablishes(filter, limits, Ledger(store.View(), twinId), start, broker.ViewOf(live), {});
      var session := new DurableSubscription(twinId, store, broker, live, filter, limits, s);
      return Ok(session);
    }
  }
}
