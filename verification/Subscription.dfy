/**
  The replay/live subscription protocol of one twin, as values: the live queue that the broker
  fills, the session that stitches replay and live delivery together, what one step of each actor
  does, and the invariant that every step keeps.
 */
module Subscriptions {
  import opened Types
  import opened Chain

  // ---------------------------------------------------------------- positions and filters

  /** A verified place in the chain; the origin carries no hash. */
  datatype Position = Position(seqNo: nat, hash: Hash)

  function At(ledger: seq<Event>, n: nat): Position
    requires n <= |ledger|
  {
    Position(n, if n == 0 then NoHash else ledger[n - 1].hash)
  }

  datatype Filter = Filter(types: Option<set<EventType>>, planes: Option<set<Plane>>)

  predicate Passes(f: Filter, e: Event) {
    && (f.types.Some? ==> TypeOf(e.req.payload) in f.types.value)
    && (f.planes.Some? ==> e.req.plane in f.planes.value)
  }

  function Filtered(f: Filter, events: seq<Event>): seq<Event> {
    if events == [] then [] else
      Filtered(f, events[..|events| - 1])
      + if Passes(f, events[|events| - 1]) then [events[|events| - 1]] else []
  }

  function Positions(events: seq<Event>): seq<Position> {
    seq(|events|, i requires 0 <= i < |events| => Position(events[i].seqNo, events[i].hash))
  }

  lemma {:induction false} FilteredSplit(f: Filter, a: seq<Event>, b: seq<Event>)
    ensures Filtered(f, a + b) == Filtered(f, a) + Filtered(f, b)
  {
    if b == [] {
      assert a + b == a;
    } else {
      FilteredSplit(f, a, b[..|b| - 1]);
      assert (a + b)[..|a + b| - 1] == a + b[..|b| - 1];
    }
  }

  /** The filtered events of a stretch of the ledger, cut at any point within it. */
  lemma FilteredRange(f: Filter, ledger: seq<Event>, a: nat, b: nat, c: nat)
    requires a <= b <= c <= |ledger|
    ensures Filtered(f, ledger[a..c]) == Filtered(f, ledger[a..b]) + Filtered(f, ledger[b..c])
  {
    FilteredSplit(f, ledger[a..b], ledger[b..c]);
    assert ledger[a..b] + ledger[b..c] == ledger[a..c];
  }

  lemma FilteredOne(f: Filter, ledger: seq<Event>, n: nat)
    requires n < |ledger|
    ensures Filtered(f, ledger[n..n + 1]) == if Passes(f, ledger[n]) then [ledger[n]] else []
  {
    assert ledger[n..n + 1] == [ledger[n]];
    assert [ledger[n]][..0] == [];
  }

  /** The events are matching events of the ledger after a and up to b, in ascending order. */
  predicate AscendsWithin(f: Filter, ledger: seq<Event>, a: nat, b: nat, r: seq<Event>)
    requires b <= |ledger|
  {
    && (forall i :: 0 <= i < |r| ==> a < r[i].seqNo <= b && r[i] == ledger[r[i].seqNo - 1] && Passes(f, r[i]))
    && (forall i, j :: 0 <= i < j < |r| ==> r[i].seqNo < r[j].seqNo)
  }

  lemma AscendsOneMore(f: Filter, ledger: seq<Event>, a: nat, b: nat, r: seq<Event>)
    requires Numbered(ledger) && a < b <= |ledger| && AscendsWithin(f, ledger, a, b - 1, r)
    ensures AscendsWithin(f, ledger, a, b, r)
    ensures Passes(f, ledger[b - 1]) ==> AscendsWithin(f, ledger, a, b, r + [ledger[b - 1]])
  {}

  lemma NothingAscends(f: Filter, ledger: seq<Event>, a: nat, b: nat)
    requires a == b <= |ledger|
    ensures AscendsWithin(f, ledger, a, b, Filtered(f, ledger[a..b]))
  {
    assert ledger[a..b] == [];
  }

  lemma {:induction false} FilteredAscends(f: Filter, ledger: seq<Event>, a: nat, b: nat)
    requires Numbered(ledger) && a <= b <= |ledger|
    ensures AscendsWithin(f, ledger, a, b, Filtered(f, ledger[a..b]))
  {
    hide Passes, AscendsWithin;
    if a < b {
      FilteredAscends(f, ledger, a, b - 1);
      FilteredRange(f, ledger, a, b - 1, b);
      FilteredOne(f, ledger, b - 1);
      AscendsOneMore(f, ledger, a, b, Filtered(f, ledger[a..b - 1]));
      assert Filtered(f, ledger[a..b - 1]) + [] == Filtered(f, ledger[a..b - 1]);
    } else {
      NothingAscends(f, ledger, a, b);
    }
  }

  /** The event is a matching event of the ledger after a and up to b. */
  predicate MatchesWithin(f: Filter, ledger: seq<Event>, a: nat, b: nat, e: Event)
    requires b <= |ledger|
  {
    a < e.seqNo <= b && e == ledger[e.seqNo - 1] && Passes(f, e)
  }

  lemma MatchesOneMore(f: Filter, ledger: seq<Event>, a: nat, b: nat, e: Event)
    requires Numbered(ledger) && a < b <= |ledger|
    ensures MatchesWithin(f, ledger, a, b, e)
       <==> MatchesWithin(f, ledger, a, b - 1, e) || (e == ledger[b - 1] && Passes(f, e))
  {
    hide Passes;
  }

  lemma NothingHeld(f: Filter, ledger: seq<Event>, a: nat, b: nat, e: Event)
    requires a == b <= |ledger|
    ensures Filtered(f, ledger[a..b]) == [] && !MatchesWithin(f, ledger, a, b, e)
  {
    assert ledger[a..b] == [];
  }

  /** An event is among the filtered ones exactly if it is a matching event of that stretch. */
  lemma {:induction false} FilteredHolds(f: Filter, ledger: seq<Event>, a: nat, b: nat, e: Event)
    requires Numbered(ledger) && a <= b <= |ledger|
    ensures e in Filtered(f, ledger[a..b]) <==> MatchesWithin(f, ledger, a, b, e)
  {
    hide Passes, MatchesWithin, Filtered;
    if a < b {
      FilteredHolds(f, ledger, a, b - 1, e);
      FilteredRange(f, ledger, a, b - 1, b);
      FilteredOne(f, ledger, b - 1);
      MatchesOneMore(f, ledger, a, b, e);
    } else {
      NothingHeld(f, ledger, a, b, e);
    }
  }

  // ---------------------------------------------------------------- the live queue

  datatype Item = Delivery(event: Event) | Sentinel

  /** `slow` holds after the broker closed the subscription because its queue was full. */
  datatype Live = Live(after: nat, queue: seq<Item>, attached: bool, closed: bool, slow: bool)

  function NewLive(after: nat): Live {
    Live(after, [], true, false, false)
  }

  function Enqueue(queue: seq<Item>, item: Item, capacity: nat): seq<Item> {
    if |queue| < capacity || queue == [] then queue + [item] else queue[1..] + [item]
  }

  /** Closing makes room for the sentinel by dropping the oldest item of a full queue. */
  function Close(live: Live, slow: bool, capacity: nat): Live {
    if live.closed then live.(attached := false)
    else Live(live.after, Enqueue(live.queue, Sentinel, capacity), false, true, slow)
  }

  /** One publication, as it reaches this subscription. */
  function Publish(live: Live, e: Event, capacity: nat): Live {
    if !live.attached || e.seqNo <= live.after then live
    else if |live.queue| < capacity then live.(queue := live.queue + [Delivery(e)])
    else Close(live, true, capacity)
  }

  predicate Holds(live: Live, n: nat) {
    exists i :: 0 <= i < |live.queue| && live.queue[i].Delivery? && live.queue[i].event.seqNo == n
  }

  /** Every queued event beyond the horizon is still queued. */
  ghost predicate Retained(horizon: nat, before: Live, after: Live) {
    forall n :: n > horizon && Holds(before, n) ==> Holds(after, n)
  }

  lemma PoppingRetains(horizon: nat, before: Live, after: Live)
    requires before.queue != [] && after.queue == before.queue[1..]
    requires before.queue[0].Delivery? ==> before.queue[0].event.seqNo <= horizon
    ensures Retained(horizon, before, after)
  {
    forall n | n > horizon && Holds(before, n)
      ensures Holds(after, n)
    {
      var i :| 0 <= i < |before.queue| && before.queue[i].Delivery? && before.queue[i].event.seqNo == n;
      assert after.queue[i - 1] == before.queue[i];
    }
  }

  // ---------------------------------------------------------------- the session

  datatype Session = Session(
    position: Position,
    acknowledged: Position,
    replayHead: nat,
    buffer: seq<Event>,
    deferred: Option<Event>,
    outstanding: seq<Position>,
    closed: bool,
    waiting: bool)

  datatype Limits = Limits(pageSize: nat, maxInFlight: nat, capacity: nat)

  predicate ValidLimits(m: Limits) {
    m.pageSize >= 1 && m.maxInFlight >= 1 && m.capacity >= 1
  }

  function Max(a: nat, b: nat): nat {
    if a < b then b else a
  }

  /** From here on the session relies on the live queue; up to here it reads the ledger. */
  function Horizon(s: Session): nat {
    Max(s.position.seqNo, s.replayHead)
  }

  predicate InLedger(ledger: seq<Event>, e: Event) {
    1 <= e.seqNo <= |ledger| && ledger[e.seqNo - 1] == e
  }

  /** The broker detaches what it closes, and the sentinel comes only with closing. */
  predicate WellClosed(live: Live) {
    && (live.attached ==> !live.closed)
    && (!live.closed ==> forall i :: 0 <= i < |live.queue| ==> live.queue[i].Delivery?)
  }

  predicate QueueInLedger(ledger: seq<Event>, live: Live) {
    forall i :: 0 <= i < |live.queue| && live.queue[i].Delivery? ==> InLedger(ledger, live.queue[i].event)
  }

  /** The session's place in the stream: what it has read, and what it has read ahead. */
  predicate Placed(ledger: seq<Event>, s: Session, live: Live) {
    && s.position.seqNo <= |ledger| && s.position == At(ledger, s.position.seqNo)
    && s.replayHead <= |ledger|
    && s.position.seqNo + |s.buffer| <= |ledger|
    && s.buffer == ledger[s.position.seqNo..s.position.seqNo + |s.buffer|]
    && (s.buffer != [] ==> s.position.seqNo + |s.buffer| <= s.replayHead)
    && (s.deferred.Some? ==> InLedger(ledger, s.deferred.value) && s.deferred.value.seqNo <= s.replayHead)
    && (s.waiting ==> s.buffer == [] && s.deferred.None? && s.replayHead <= s.position.seqNo)
    && QueueInLedger(ledger, live)
    && live.after <= Horizon(s)
    && WellClosed(live)
  }

  /** The delivery window: exactly the filtered events after the acknowledged position. */
  predicate Windowed(f: Filter, m: Limits, ledger: seq<Event>, s: Session) {
    && s.acknowledged.seqNo <= s.position.seqNo <= |ledger|
    && s.acknowledged == At(ledger, s.acknowledged.seqNo)
    && s.outstanding == Positions(Filtered(f, ledger[s.acknowledged.seqNo..s.position.seqNo]))
    && |s.outstanding| <= m.maxInFlight
  }

  predicate SessionInv(f: Filter, m: Limits, ledger: seq<Event>, s: Session, live: Live) {
    Placed(ledger, s, live) && Windowed(f, m, ledger, s)
  }

  /** Everything already broadcast beyond the horizon sits in the queue of an attached subscription. */
  predicate NothingLost(broadcast: set<nat>, s: Session, live: Live) {
    live.attached ==> forall n :: n in broadcast && n > Horizon(s) ==> Holds(live, n)
  }

  lemma LedgerGrows(f: Filter, m: Limits, ledger: seq<Event>, more: seq<Event>, s: Session, live: Live)
    requires SessionInv(f, m, ledger, s, live) && ledger <= more
    ensures SessionInv(f, m, more, s, live)
  {
    assert more[s.acknowledged.seqNo..s.position.seqNo] == ledger[s.acknowledged.seqNo..s.position.seqNo];
    var n := s.position.seqNo + |s.buffer|;
    assert more[s.position.seqNo..n] == ledger[s.position.seqNo..n];
  }

  /** A publication, late or repeated or out of order, keeps the invariant and is not lost. */
  lemma PublishKeeps(f: Filter, m: Limits, ledger: seq<Event>, s: Session, live: Live, n: nat, broadcast: set<nat>)
    requires ValidLimits(m) && SessionInv(f, m, ledger, s, live) && 1 <= n <= |ledger| && Numbered(ledger)
    requires NothingLost(broadcast, s, live)
    ensures var after := Publish(live, ledger[n - 1], m.capacity);
            SessionInv(f, m, ledger, s, after) && NothingLost(broadcast + {n}, s, after)
  {
    var e, after := ledger[n - 1], Publish(live, ledger[n - 1], m.capacity);
    forall i | 0 <= i < |after.queue| && after.queue[i].Delivery?
      ensures InLedger(ledger, after.queue[i].event)
    {
      if i < |live.queue| && after.queue[i] != live.queue[i] && i + 1 < |live.queue| {
        assert after.queue[i] == live.queue[i + 1];
      }
    }
    if after.attached {
      forall k | k in broadcast + {n} && k > Horizon(s)
        ensures Holds(after, k)
      {
        if k in broadcast {
          var i :| 0 <= i < |live.queue| && live.queue[i].Delivery? && live.queue[i].event.seqNo == k;
          assert after.queue[i] == live.queue[i];
        } else {
          assert after.queue[|live.queue|] == Delivery(e);
        }
      }
    }
  }

  lemma CloseKeeps(f: Filter, m: Limits, ledger: seq<Event>, s: Session, live: Live, slow: bool)
    requires SessionInv(f, m, ledger, s, live)
    ensures SessionInv(f, m, ledger, s, Close(live, slow, m.capacity))
  {
    var after := Close(live, slow, m.capacity);
    forall i | 0 <= i < |after.queue| && after.queue[i].Delivery?
      ensures InLedger(ledger, after.queue[i].event)
    {
      if after.queue[i] != Sentinel && !live.closed {
        assert i < |live.queue|;
        assert after.queue[i] == live.queue[i] || after.queue[i] == live.queue[i + 1];
      }
    }
  }

  // ---------------------------------------------------------------- opening

  /** The cursor check of open: the head is read after the live subscription exists. */
  function OpenSession(ledger: seq<Event>, start: Position): Result<Session> {
    if start.seqNo > |ledger| then Err(ResumeCursorRejected)
    else if start.seqNo > 0 && ledger[start.seqNo - 1].hash != start.hash then Err(ResumeCursorRejected)
    else Ok(Session(start, start, |ledger|, [], None, [], false, false))
  }

  /** A well-formed cursor is accepted exactly if it is a place in this chain. */
  lemma CursorAcceptedIffInChain(ledger: seq<Event>, start: Position)
    requires start.seqNo == 0 ==> start.hash == NoHash
    ensures OpenSession(ledger, start).Ok? <==> start.seqNo <= |ledger| && start == At(ledger, start.seqNo)
  {}

  /**
    Opening establishes the invariant, and nothing that was ever broadcast is lost, whatever was
    appended and published between the subscription and the reading of the head.
   */
  lemma OpenEstablishes(f: Filter, m: Limits, ledger: seq<Event>, start: Position, live: Live, broadcast: set<nat>)
    requires start.seqNo <= |ledger| && start == At(ledger, start.seqNo)
    requires QueueInLedger(ledger, live) && live.after == start.seqNo && WellClosed(live)
    requires forall n :: n in broadcast ==> n <= |ledger|
    ensures OpenSession(ledger, start).Ok?
    ensures SessionInv(f, m, ledger, OpenSession(ledger, start).value, live)
    ensures NothingLost(broadcast, OpenSession(ledger, start).value, live)
  {
    assert ledger[start.seqNo..start.seqNo] == [];
  }

  // ---------------------------------------------------------------- consuming

  datatype Outcome =
    | Delivered(event: Event)
    | Blocked
    | Stopped
    | WindowFull
    | SlowConsumer
    | Corrupt

  /**
    What reading the live queue gives: an event, the sentinel or the note that it was closed before,
    or nothing yet. A reader that was already waiting is woken by an item without a look at `closed`.
   */
  predicate Got(before: Live, after: Live, waiting: bool, item: Option<Event>, out: Outcome) {
    && after.attached == before.attached && after.slow == before.slow
    && if item.Some? then
         && before.queue != [] && before.queue[0] == Delivery(item.value)
         && after == before.(queue := before.queue[1..], after := item.value.seqNo)
       else if out.Blocked? then after == before && before.queue == [] && (waiting || !before.closed)
       else
         && out == (if before.slow then SlowConsumer else Stopped)
         && (if before.closed && !waiting then after == before
             else
               && before.queue != [] && before.queue[0] == Sentinel
               && after == before.(queue := before.queue[1..], closed := true))
  }

  /** Reading keeps the queue sound; an attached subscription yields an event or makes its reader wait. */
  lemma GotKeeps(ledger: seq<Event>, before: Live, after: Live, waiting: bool, item: Option<Event>, out: Outcome, h: nat)
    requires QueueInLedger(ledger, before) && WellClosed(before) && Got(before, after, waiting, item, out)
    requires item.Some? ==> item.value.seqNo <= h
    ensures QueueInLedger(ledger, after) && WellClosed(after) && Retained(h, before, after)
    ensures item.Some? ==>
      InLedger(ledger, item.value) && after.after == item.value.seqNo && |after.queue| < |before.queue|
    ensures item.None? ==>
      && after.after == before.after && (out.Blocked? || out.Stopped? || out.SlowConsumer?)
      && (out.Blocked? ==> after.queue == [])
    ensures before.attached && item.None? ==> out.Blocked? && after == before
  {
    if after != before {
      PoppingRetains(h, before, after);
      assert forall i :: 0 <= i < |after.queue| ==> after.queue[i] == before.queue[i + 1];
    }
  }

  /** The position up to which a consumer step skipped events that the filter excludes. */
  function SkippedTo(t: Session, out: Outcome): nat {
    if out.Delivered? && t.position.seqNo > 0 then t.position.seqNo - 1 else t.position.seqNo
  }

  /**
    What one consumer step may do: it moves over the ledger, hands out the next matching event or
    none, extends the window by what it hands out, and loses nothing that is still to be delivered.
   */
  ghost predicate Consumed(f: Filter, ledger: seq<Event>, s: Session, live: Live, t: Session, after: Live, out: Outcome) {
    && s.position.seqNo <= t.position.seqNo <= |ledger| && s.replayHead <= t.replayHead
    && Filtered(f, ledger[s.position.seqNo..t.position.seqNo]) == (if out.Delivered? then [out.event] else [])
    && (out.Delivered? ==> s.position.seqNo < t.position.seqNo && out.event == ledger[t.position.seqNo - 1])
    && t.outstanding == s.outstanding + (if out.Delivered? then [Position(out.event.seqNo, out.event.hash)] else [])
    && SkippedTo(t, out) <= |ledger|
    && t.acknowledged == (if s.outstanding == [] && SkippedTo(t, out) > s.position.seqNo
                          then At(ledger, SkippedTo(t, out)) else s.acknowledged)
    && (after.attached ==> live.attached && Retained(Horizon(t), live, after))
    && (out.Blocked? ==> t.waiting && after.queue == [])
    && (!out.Blocked? ==> !t.waiting)
  }

  lemma PositionsAppend(a: seq<Event>, b: seq<Event>)
    ensures Positions(a + b) == Positions(a) + Positions(b)
  {}

  lemma FilteredNone(f: Filter)
    ensures Filtered(f, []) == []
  {}

  /** A step from an empty window: what was skipped is acknowledged by the session itself. */
  lemma ConsumedFromEmptyWindow(f: Filter, m: Limits, ledger: seq<Event>, s: Session, live: Live, t: Session, after: Live,
                                out: Outcome)
    requires Windowed(f, m, ledger, s) && Numbered(ledger) && s.outstanding == [] && ValidLimits(m)
    requires Consumed(f, ledger, s, live, t, after, out)
    ensures Windowed(f, m, ledger, t)
  {
    var a, p, q := s.acknowledged.seqNo, s.position.seqNo, t.position.seqNo;
    hide Filtered, TypeOf;
    assert Filtered(f, ledger[a..p]) == [] by {
      assert |Positions(Filtered(f, ledger[a..p]))| == 0;
    }
    assert Filtered(f, []) == [] && ledger[q..q] == [] by {
      FilteredNone(f);
    }
    if t.acknowledged == s.acknowledged {
      FilteredRange(f, ledger, a, p, q);
    } else if out.Delivered? {
      FilteredAscends(f, ledger, p, q);
      assert Passes(f, Filtered(f, ledger[p..q])[0]);
      FilteredOne(f, ledger, q - 1);
    }
  }

  /** Every step that a consumer can take keeps the window exact. */
  lemma ConsumedKeeps(f: Filter, m: Limits, ledger: seq<Event>, s: Session, live: Live, t: Session, after: Live, out: Outcome)
    requires Windowed(f, m, ledger, s) && Numbered(ledger) && ValidLimits(m)
    requires Consumed(f, ledger, s, live, t, after, out) && (out.Delivered? ==> |s.outstanding| < m.maxInFlight)
    ensures Windowed(f, m, ledger, t)
  {
    if s.outstanding == [] {
      ConsumedFromEmptyWindow(f, m, ledger, s, live, t, after, out);
    } else {
      var a, p, q := s.acknowledged.seqNo, s.position.seqNo, t.position.seqNo;
      FilteredRange(f, ledger, a, p, q);
      PositionsAppend(Filtered(f, ledger[a..p]), Filtered(f, ledger[p..q]));
    }
  }

  lemma ConsumedLosesNothing(f: Filter, ledger: seq<Event>, s: Session, live: Live, t: Session, after: Live, out: Outcome,
                             broadcast: set<nat>)
    requires Consumed(f, ledger, s, live, t, after, out) && NothingLost(broadcast, s, live)
    ensures NothingLost(broadcast, t, after)
  {}

  // ---------------------------------------------------------------- acknowledging

  function FindPosition(ps: seq<Position>, n: nat): (r: Option<Position>)
    ensures r.Some? ==> r.value in ps && r.value.seqNo == n
    ensures r.None? ==> forall p :: p in ps ==> p.seqNo != n
  {
    if ps == [] then None else if ps[0].seqNo == n then Some(ps[0]) else FindPosition(ps[1..], n)
  }

  function DropThrough(ps: seq<Position>, n: nat): seq<Position> {
    if ps == [] || ps[0].seqNo > n then ps else DropThrough(ps[1..], n)
  }

  /** Cumulative acknowledgement: of the acknowledged position again, or of an outstanding one. */
  function Acknowledge(s: Session, p: Position): (Session, Result<Position>) {
    if p.seqNo < s.acknowledged.seqNo then (s, Err(ProtocolViolation))
    else if p.seqNo == s.acknowledged.seqNo then
      (s, if p.hash == s.acknowledged.hash then Ok(s.acknowledged) else Err(ProtocolViolation))
    else
      var matched := FindPosition(s.outstanding, p.seqNo);
      if matched.None? || matched.value.hash != p.hash then (s, Err(ProtocolViolation))
      else (s.(outstanding := DropThrough(s.outstanding, p.seqNo), acknowledged := p), Ok(p))
  }

  lemma {:induction false} DropThroughSuffix(a: seq<Position>, b: seq<Position>, n: nat)
    requires (forall p :: p in a ==> p.seqNo <= n) && (b != [] ==> b[0].seqNo > n)
    ensures DropThrough(a + b, n) == b
  {
    if a == [] {
      assert a + b == b;
    } else {
      assert a[0] in a;
      assert (a + b)[1..] == a[1..] + b;
      DropThroughSuffix(a[1..], b, n);
    }
  }

  /** The window's positions lie after the acknowledged one, in the chain. */
  lemma WindowInChain(f: Filter, m: Limits, ledger: seq<Event>, s: Session, i: nat)
    requires Windowed(f, m, ledger, s) && Numbered(ledger) && i < |s.outstanding|
    ensures s.acknowledged.seqNo < s.outstanding[i].seqNo <= s.position.seqNo
    ensures s.outstanding[i] == At(ledger, s.outstanding[i].seqNo)
    ensures forall j :: i < j < |s.outstanding| ==> s.outstanding[i].seqNo < s.outstanding[j].seqNo
  {
    FilteredAscends(f, ledger, s.acknowledged.seqNo, s.position.seqNo);
    var r := Filtered(f, ledger[s.acknowledged.seqNo..s.position.seqNo]);
    assert |r| == |Positions(r)| == |s.outstanding|;
    forall k | 0 <= k < |r|
      ensures s.outstanding[k] == Position(r[k].seqNo, r[k].hash) == At(ledger, r[k].seqNo)
    {}
  }

  /** Dropping through a position of the window leaves the window after it. */
  lemma DropLeavesWindow(f: Filter, ledger: seq<Event>, a: nat, b: nat, q: nat)
    requires Numbered(ledger) && a <= b <= q <= |ledger|
    ensures DropThrough(Positions(Filtered(f, ledger[a..q])), b) == Positions(Filtered(f, ledger[b..q]))
  {
    FilteredRange(f, ledger, a, b, q);
    FilteredAscends(f, ledger, a, b);
    FilteredAscends(f, ledger, b, q);
    PositionsAppend(Filtered(f, ledger[a..b]), Filtered(f, ledger[b..q]));
    DropThroughSuffix(Positions(Filtered(f, ledger[a..b])), Positions(Filtered(f, ledger[b..q])), b);
  }

  lemma {:induction false} DropShortens(ps: seq<Position>, n: nat)
    ensures |DropThrough(ps, n)| <= |ps|
  {
    if ps != [] && ps[0].seqNo <= n {
      DropShortens(ps[1..], n);
    }
  }

  /**
    An acknowledgement is accepted exactly for the acknowledged position and for the positions in
    the window; it never regresses, and the window stays exact.
   */
  lemma AcknowledgeKeeps(f: Filter, m: Limits, ledger: seq<Event>, s: Session, p: Position)
    requires Windowed(f, m, ledger, s) && Numbered(ledger)
    ensures var (t, r) := Acknowledge(s, p);
            && Windowed(f, m, ledger, t)
            && s.acknowledged.seqNo <= t.acknowledged.seqNo
            && (r.Ok? <==> p == s.acknowledged || p in s.outstanding)
            && (r.Ok? ==> t.acknowledged == p && t == s.(outstanding := t.outstanding, acknowledged := p))
            && (r.Err? ==> t == s)
  {
    hide Filtered, Positions;
    forall i | 0 <= i < |s.outstanding|
      ensures s.acknowledged.seqNo < s.outstanding[i].seqNo <= s.position.seqNo
      ensures s.outstanding[i] == At(ledger, s.outstanding[i].seqNo)
      ensures forall j :: i < j < |s.outstanding| ==> s.outstanding[i].seqNo < s.outstanding[j].seqNo
    {
      WindowInChain(f, m, ledger, s, i);
    }
    if p in s.outstanding {
      DropLeavesWindow(f, ledger, s.acknowledged.seqNo, p.seqNo, s.position.seqNo);
      assert |Acknowledge(s, p).0.outstanding| <= |s.outstanding| by {
        DropShortens(s.outstanding, p.seqNo);
      }
    }
  }
}
