/**
  Whole runs of the subscription protocol: writers append, relays broadcast late, repeatedly or out
  of order, and one client connects, consumes, acknowledges, and reconnects at the acknowledged
  cursor, in any interleaving.
 */
module SyncRuns {
  import opened Types
  import opened Chain
  import opened Subscriptions

  datatype Phase =
    | Idle(cursor: Position)
    | Connecting(cursor: Position, live: Live)
    | Streaming(start: nat, session: Session, live: Live)

  /** A session that ended: where it started, how far it came, what was acknowledged, all it handed out. */
  datatype Ended = Ended(start: nat, position: nat, cut: nat, delivered: seq<Event>)

  /**
    `archive` is what the client acknowledged in earlier sessions, `delivered` what the current
    session handed out, `past` every earlier session with all its deliveries, and `origin` the
    sequence number of the very first cursor.
   */
  datatype World = World(ledger: seq<Event>, broadcast: set<nat>, origin: nat, phase: Phase,
                         archive: seq<Event>, delivered: seq<Event>, past: seq<Ended>)

  datatype Action =
    | AppendEvent(req: Request, now: int)
    | Broadcast(n: nat)
    | Connect
    | CaptureHead
    | Consume(session: Session, live: Live, out: Outcome)
    | Ack(position: Position)
    | Disconnect

  function TakeThrough(events: seq<Event>, n: nat): seq<Event> {
    if events == [] || events[0].seqNo > n then [] else [events[0]] + TakeThrough(events[1..], n)
  }

  ghost predicate Enabled(f: Filter, m: Limits, w: World, a: Action) {
    match a
    case AppendEvent(_, _) => true
    case Broadcast(n) => 1 <= n <= |w.ledger|
    case Connect => w.phase.Idle?
    case CaptureHead => w.phase.Connecting?
    case Consume(t, after, out) =>
      && w.phase.Streaming? && !out.Corrupt?
      && (out.Delivered? ==> |w.phase.session.outstanding| < m.maxInFlight)
      && Placed(w.ledger, t, after)
      && Consumed(f, w.ledger, w.phase.session, w.phase.live, t, after, out)
    case Ack(_) => w.phase.Streaming?
    case Disconnect => !w.phase.Idle?
  }

  ghost function Take(f: Filter, m: Limits, w: World, a: Action): World
    requires Enabled(f, m, w, a)
  {
    match a
    case AppendEvent(req, now) =>
      w.(ledger := w.ledger + [Seal(req, |w.ledger| + 1, now, HeadHash(w.ledger))])
    case Broadcast(n) =>
      w.(broadcast := w.broadcast + {n},
         phase := match w.phase
           case Idle(_) => w.phase
           case Connecting(c, live) => Connecting(c, Publish(live, w.ledger[n - 1], m.capacity))
           case Streaming(start, s, live) => Streaming(start, s, Publish(live, w.ledger[n - 1], m.capacity)))
    case Connect => w.(phase := Connecting(w.phase.cursor, NewLive(w.phase.cursor.seqNo)))
    case CaptureHead =>
      (match OpenSession(w.ledger, w.phase.cursor)
       case Err(_) => w.(phase := Idle(w.phase.cursor))
       case Ok(s) => w.(phase := Streaming(w.phase.cursor.seqNo, s, w.phase.live)))
    case Consume(t, after, out) =>
      w.(phase := Streaming(w.phase.start, t, after),
         delivered := w.delivered + if out.Delivered? then [out.event] else [])
    case Ack(p) => w.(phase := w.phase.(session := Acknowledge(w.phase.session, p).0))
    case Disconnect =>
      if w.phase.Connecting? then w.(phase := Idle(w.phase.cursor)) else
        var s := w.phase.session;
        World(w.ledger, w.broadcast, w.origin, Idle(s.acknowledged),
              w.archive + TakeThrough(w.delivered, s.acknowledged.seqNo), [],
              w.past + [Ended(w.phase.start, s.position.seqNo, s.acknowledged.seqNo, w.delivered)])
  }

  /** A run starts idle at any cursor of any chain, before anything was handed out. */
  predicate Initial(w: World) {
    && IsChain(w.ledger) && (forall n :: n in w.broadcast ==> 1 <= n <= |w.ledger|)
    && w.origin <= |w.ledger| && w.phase == Idle(At(w.ledger, w.origin))
    && w.archive == [] && w.delivered == [] && w.past == []
  }

  ghost predicate IsRun(f: Filter, m: Limits, ws: seq<World>, acts: seq<Action>) {
    && ValidLimits(m) && |ws| == |acts| + 1 && Initial(ws[0])
    && forall i :: 0 <= i < |acts| ==> Enabled(f, m, ws[i], acts[i]) && ws[i + 1] == Take(f, m, ws[i], acts[i])
  }

  // ---------------------------------------------------------------- the invariant of a run

  predicate CursorInv(f: Filter, w: World, c: Position) {
    && w.origin <= c.seqNo <= |w.ledger| && c == At(w.ledger, c.seqNo)
    && w.archive == Filtered(f, w.ledger[w.origin..c.seqNo]) && w.delivered == []
  }

  predicate LiveInv(w: World, c: Position, live: Live) {
    QueueInLedger(w.ledger, live) && live.after == c.seqNo && WellClosed(live)
  }

  predicate StreamInv(f: Filter, m: Limits, w: World, start: nat, s: Session, live: Live) {
    && SessionInv(f, m, w.ledger, s, live) && NothingLost(w.broadcast, s, live)
    && w.origin <= start <= s.acknowledged.seqNo
    && w.archive == Filtered(f, w.ledger[w.origin..start])
    && w.delivered == Filtered(f, w.ledger[start..s.position.seqNo])
  }

  ghost predicate Inv(f: Filter, m: Limits, w: World) {
    && IsChain(w.ledger) && (forall n :: n in w.broadcast ==> 1 <= n <= |w.ledger|)
    && match w.phase
       case Idle(c) => CursorInv(f, w, c)
       case Connecting(c, live) => CursorInv(f, w, c) && LiveInv(w, c, live)
       case Streaming(start, s, live) => StreamInv(f, m, w, start, s, live)
  }

  /** A longer ledger leaves what the invariant says of the shorter one. */
  lemma StreamGrows(f: Filter, m: Limits, w: World, more: seq<Event>, start: nat, s: Session, live: Live)
    requires StreamInv(f, m, w, start, s, live) && w.ledger <= more
    ensures StreamInv(f, m, w.(ledger := more), start, s, live)
  {
    hide Filtered, Placed;
    LedgerGrows(f, m, w.ledger, more, s, live);
    assert more[w.origin..start] == w.ledger[w.origin..start];
    assert more[start..s.position.seqNo] == w.ledger[start..s.position.seqNo];
  }

  lemma CursorGrows(f: Filter, w: World, more: seq<Event>, c: Position)
    requires CursorInv(f, w, c) && w.ledger <= more
    ensures CursorInv(f, w.(ledger := more), c)
  {
    assert more[w.origin..c.seqNo] == w.ledger[w.origin..c.seqNo];
  }

  lemma QueueGrows(w: World, more: seq<Event>, c: Position, live: Live)
    requires LiveInv(w, c, live) && w.ledger <= more
    ensures LiveInv(w.(ledger := more), c, live)
  {}

  lemma AppendKeeps(f: Filter, m: Limits, w: World, a: Action)
    requires Inv(f, m, w) && a.AppendEvent?
    ensures Inv(f, m, Take(f, m, w, a))
  {
    hide Filtered, Publish, StreamInv, CursorInv, LiveInv, IsChain;
    var v := Take(f, m, w, a);
    SealExtendsChain(w.ledger, a.req, a.now);
    match w.phase
    case Idle(c) => CursorGrows(f, w, v.ledger, c);
    case Connecting(c, live) =>
      CursorGrows(f, w, v.ledger, c);
      QueueGrows(w, v.ledger, c, live);
    case Streaming(start, s, live) => StreamGrows(f, m, w, v.ledger, start, s, live);
  }

  lemma QueuePublished(m: Limits, ledger: seq<Event>, live: Live, n: nat)
    requires QueueInLedger(ledger, live) && 1 <= n <= |ledger| && Numbered(ledger) && WellClosed(live)
    ensures var after := Publish(live, ledger[n - 1], m.capacity);
            QueueInLedger(ledger, after) && after.after == live.after && WellClosed(after)
  {
    var after := Publish(live, ledger[n - 1], m.capacity);
    forall i | 0 <= i < |after.queue| && after.queue[i].Delivery?
      ensures InLedger(ledger, after.queue[i].event)
    {
      if i + 1 < |live.queue| && after.queue[i] != live.queue[i] {
        assert after.queue[i] == live.queue[i + 1];
      }
    }
  }

  lemma BroadcastKeeps(f: Filter, m: Limits, w: World, a: Action)
    requires ValidLimits(m) && Inv(f, m, w) && a.Broadcast? && Enabled(f, m, w, a)
    ensures Inv(f, m, Take(f, m, w, a))
  {
    hide Filtered, Publish;
    ChainIsNumbered(w.ledger);
    match w.phase
    case Idle(_) =>
    case Connecting(c, live) => QueuePublished(m, w.ledger, live, a.n);
    case Streaming(start, s, live) => PublishKeeps(f, m, w.ledger, s, live, a.n, w.broadcast);
  }

  /** A cursor that was acknowledged is always accepted again. */
  lemma CaptureKeeps(f: Filter, m: Limits, w: World)
    requires Inv(f, m, w) && w.phase.Connecting?
    ensures Take(f, m, w, CaptureHead).phase.Streaming? && Inv(f, m, Take(f, m, w, CaptureHead))
  {
    var c := w.phase.cursor;
    OpenEstablishes(f, m, w.ledger, c, w.phase.live, w.broadcast);
    assert w.ledger[c.seqNo..c.seqNo] == [];
  }

  lemma ConsumeKeeps(f: Filter, m: Limits, w: World, a: Action)
    requires ValidLimits(m) && Inv(f, m, w) && a.Consume? && Enabled(f, m, w, a)
    ensures Inv(f, m, Take(f, m, w, a))
  {
    hide Filtered, Placed;
    var s, live, start := w.phase.session, w.phase.live, w.phase.start;
    ChainIsNumbered(w.ledger);
    ConsumedKeeps(f, m, w.ledger, s, live, a.session, a.live, a.out);
    ConsumedLosesNothing(f, w.ledger, s, live, a.session, a.live, a.out, w.broadcast);
    FilteredRange(f, w.ledger, start, s.position.seqNo, a.session.position.seqNo);
  }

  lemma AckKeeps(f: Filter, m: Limits, w: World, a: Action)
    requires Inv(f, m, w) && a.Ack? && w.phase.Streaming?
    ensures Inv(f, m, Take(f, m, w, a))
  {
    hide Filtered, Acknowledge;
    ChainIsNumbered(w.ledger);
    AcknowledgeKeeps(f, m, w.ledger, w.phase.session, a.position);
  }

  lemma {:induction false} TakeThroughSplit(a: seq<Event>, b: seq<Event>, n: nat)
    requires (forall e :: e in a ==> e.seqNo <= n) && (b != [] ==> b[0].seqNo > n)
    ensures TakeThrough(a + b, n) == a
  {
    if a == [] {
      assert a + b == b;
    } else {
      assert a[0] in a && (a + b)[1..] == a[1..] + b;
      TakeThroughSplit(a[1..], b, n);
    }
  }

  lemma DisconnectKeeps(f: Filter, m: Limits, w: World)
    requires Inv(f, m, w) && !w.phase.Idle?
    ensures Inv(f, m, Take(f, m, w, Disconnect))
  {
    hide Filtered;
    if w.phase.Streaming? {
      ChainIsNumbered(w.ledger);
      var start, a, p := w.phase.start, w.phase.session.acknowledged.seqNo, w.phase.session.position.seqNo;
      FilteredRange(f, w.ledger, start, a, p);
      FilteredAscends(f, w.ledger, start, a);
      FilteredAscends(f, w.ledger, a, p);
      TakeThroughSplit(Filtered(f, w.ledger[start..a]), Filtered(f, w.ledger[a..p]), a);
      FilteredRange(f, w.ledger, w.origin, start, a);
    }
  }

  lemma ActionKeeps(f: Filter, m: Limits, w: World, a: Action)
    requires ValidLimits(m) && Inv(f, m, w) && Enabled(f, m, w, a)
    ensures Inv(f, m, Take(f, m, w, a))
  {
    match a
    case AppendEvent(_, _) => AppendKeeps(f, m, w, a);
    case Broadcast(_) => BroadcastKeeps(f, m, w, a);
    case Connect =>
    case CaptureHead => CaptureKeeps(f, m, w);
    case Consume(_, _, _) => ConsumeKeeps(f, m, w, a);
    case Ack(_) => AckKeeps(f, m, w, a);
    case Disconnect => DisconnectKeeps(f, m, w);
  }

  lemma InitialInv(f: Filter, m: Limits, w: World)
    requires Initial(w)
    ensures Inv(f, m, w)
  {
    assert w.ledger[w.origin..w.origin] == [];
  }

  lemma {:induction false} RunKeeps(f: Filter, m: Limits, ws: seq<World>, acts: seq<Action>, n: nat)
    requires IsRun(f, m, ws, acts) && n < |ws|
    ensures Inv(f, m, ws[n])
  {
    hide Inv, Take, Enabled;
    if n == 0 {
      InitialInv(f, m, ws[0]);
    } else {
      RunKeeps(f, m, ws, acts, n - 1);
      assert Enabled(f, m, ws[n - 1], acts[n - 1]);
      ActionKeeps(f, m, ws[n - 1], acts[n - 1]);
    }
  }

  // ---------------------------------------------------------------- what a run delivers

  lemma StreamFacts(f: Filter, m: Limits, w: World, start: nat, s: Session, live: Live)
    requires StreamInv(f, m, w, start, s, live)
    ensures w.origin <= start <= s.acknowledged.seqNo <= s.position.seqNo <= |w.ledger|
  {
    hide Filtered, Placed, NothingLost;
  }

  lemma StreamIsExact(f: Filter, m: Limits, w: World)
    requires Inv(f, m, w) && w.phase.Streaming?
    ensures var p := w.phase.session.position.seqNo;
            && w.origin <= w.phase.start <= p <= |w.ledger|
            && w.delivered == Filtered(f, w.ledger[w.phase.start..p])
            && w.archive + w.delivered == Filtered(f, w.ledger[w.origin..p])
  {
    hide Filtered, SessionInv, NothingLost;
    StreamFacts(f, m, w, w.phase.start, w.phase.session, w.phase.live);
    FilteredRange(f, w.ledger, w.origin, w.phase.start, w.phase.session.position.seqNo);
  }

  /**
    Under every interleaving, what a session has handed out is exactly the matching events between
    its start and its position, in order and once each; with the acknowledged part of the earlier
    sessions, it is exactly the matching events since the very first cursor.
   */
  lemma DeliveryIsExact(f: Filter, m: Limits, ws: seq<World>, acts: seq<Action>, n: nat)
    requires IsRun(f, m, ws, acts) && n < |ws| && ws[n].phase.Streaming?
    ensures var w := ws[n]; var p := w.phase.session.position.seqNo;
            && w.origin <= w.phase.start <= p <= |w.ledger|
            && w.delivered == Filtered(f, w.ledger[w.phase.start..p])
            && w.archive + w.delivered == Filtered(f, w.ledger[w.origin..p])
  {
    hide Inv;
    RunKeeps(f, m, ws, acts, n);
    StreamIsExact(f, m, ws[n]);
  }

  /** What was acknowledged in earlier sessions, and then what this one hands out, strictly ascends. */
  lemma DeliveryAscends(f: Filter, m: Limits, ws: seq<World>, acts: seq<Action>, n: nat, i: nat, j: nat)
    requires IsRun(f, m, ws, acts) && n < |ws| && ws[n].phase.Streaming?
    requires i < j < |ws[n].archive + ws[n].delivered|
    ensures (ws[n].archive + ws[n].delivered)[i].seqNo < (ws[n].archive + ws[n].delivered)[j].seqNo
  {
    DeliveryIsExact(f, m, ws, acts, n);
    RunKeeps(f, m, ws, acts, n);
    ChainIsNumbered(ws[n].ledger);
    FilteredAscends(f, ws[n].ledger, ws[n].origin, ws[n].phase.session.position.seqNo);
  }

  // ---------------------------------------------------------------- deliveries over all sessions

  /** Where a session starts: where its predecessor was acknowledged, or at the very first cursor. */
  function StartAfter(origin: nat, past: seq<Ended>, k: nat): nat
    requires k <= |past|
  {
    if k == 0 then origin else past[k - 1].cut
  }

  predicate PastExact(f: Filter, ledger: seq<Event>, x: Ended) {
    && x.start <= x.cut <= x.position <= |ledger|
    && x.delivered == Filtered(f, ledger[x.start..x.position])
  }

  /** Each earlier session handed out its stretch, and started where its predecessor was acknowledged. */
  predicate PastSound(f: Filter, ledger: seq<Event>, origin: nat, past: seq<Ended>) {
    && (forall k :: 0 <= k < |past| ==> PastExact(f, ledger, past[k]))
    && (forall k :: 0 <= k < |past| ==> past[k].start == StartAfter(origin, past, k))
  }

  function ResumesAt(w: World): nat {
    match w.phase
    case Idle(c) => c.seqNo
    case Connecting(c, _) => c.seqNo
    case Streaming(start, _, _) => start
  }

  predicate PastInv(f: Filter, w: World) {
    PastSound(f, w.ledger, w.origin, w.past) && ResumesAt(w) == StartAfter(w.origin, w.past, |w.past|)
  }

  lemma PastGrows(f: Filter, ledger: seq<Event>, more: seq<Event>, origin: nat, past: seq<Ended>)
    requires PastSound(f, ledger, origin, past) && ledger <= more
    ensures PastSound(f, more, origin, past)
  {
    hide Filtered;
    forall k | 0 <= k < |past|
      ensures PastExact(f, more, past[k])
    {
      assert PastExact(f, ledger, past[k]);
      assert more[past[k].start..past[k].position] == ledger[past[k].start..past[k].position];
    }
  }

  /** Only a disconnect ends a session; everything else leaves the past and the place to resume at alone. */
  lemma OthersKeepPast(f: Filter, m: Limits, w: World, a: Action)
    requires Inv(f, m, w) && Enabled(f, m, w, a) && !(a.Disconnect? && w.phase.Streaming?)
    ensures var v := Take(f, m, w, a);
            w.ledger <= v.ledger && v.origin == w.origin && v.past == w.past && ResumesAt(v) == ResumesAt(w)
  {
    hide Inv, Filtered, Consumed, Placed, Publish, Acknowledge, OpenSession, IsChain, Seal, TakeThrough;
  }

  lemma PastOneMore(f: Filter, ledger: seq<Event>, origin: nat, past: seq<Ended>, x: Ended)
    requires PastSound(f, ledger, origin, past) && PastExact(f, ledger, x) && x.start == StartAfter(origin, past, |past|)
    ensures PastSound(f, ledger, origin, past + [x]) && StartAfter(origin, past + [x], |past| + 1) == x.cut
  {
    hide PastExact;
    assert forall k :: 0 <= k < |past| ==> (past + [x])[k] == past[k];
  }

  lemma DisconnectKeepsPast(f: Filter, m: Limits, w: World)
    requires Inv(f, m, w) && PastInv(f, w) && w.phase.Streaming?
    ensures PastInv(f, Take(f, m, w, Disconnect))
  {
    hide Filtered, SessionInv, NothingLost, TakeThrough, IsChain, PastSound, StartAfter;
    var s := w.phase.session;
    StreamFacts(f, m, w, w.phase.start, s, w.phase.live);
    PastOneMore(f, w.ledger, w.origin, w.past,
                Ended(w.phase.start, s.position.seqNo, s.acknowledged.seqNo, w.delivered));
  }

  lemma ActionKeepsPast(f: Filter, m: Limits, w: World, a: Action)
    requires Inv(f, m, w) && PastInv(f, w) && Enabled(f, m, w, a)
    ensures PastInv(f, Take(f, m, w, a))
  {
    hide Inv, Take, Enabled, PastSound, ResumesAt;
    if a.Disconnect? && w.phase.Streaming? {
      DisconnectKeepsPast(f, m, w);
    } else {
      OthersKeepPast(f, m, w, a);
      PastGrows(f, w.ledger, Take(f, m, w, a).ledger, w.origin, w.past);
    }
  }

  lemma InitialPast(f: Filter, w: World)
    requires Initial(w)
    ensures PastInv(f, w)
  {}

  lemma {:induction false} RunKeepsPast(f: Filter, m: Limits, ws: seq<World>, acts: seq<Action>, n: nat)
    requires IsRun(f, m, ws, acts) && n < |ws|
    ensures PastInv(f, ws[n])
  {
    hide Inv, Take, Enabled, PastInv;
    if n == 0 {
      InitialPast(f, ws[0]);
    } else {
      RunKeepsPast(f, m, ws, acts, n - 1);
      RunKeeps(f, m, ws, acts, n - 1);
      assert Enabled(f, m, ws[n - 1], acts[n - 1]);
      ActionKeepsPast(f, m, ws[n - 1], acts[n - 1]);
    }
  }

  /** All that a session handed out, acknowledged or not; the last number is the current session. */
  function DeliveredIn(w: World, k: nat): seq<Event>
    requires k <= |w.past|
  {
    if k < |w.past| then w.past[k].delivered else w.delivered
  }

  function PositionIn(w: World, k: nat): nat
    requires k < |w.past| || (k == |w.past| && w.phase.Streaming?)
  {
    if k < |w.past| then w.past[k].position else w.phase.session.position.seqNo
  }

  function StartOf(w: World, k: nat): nat
    requires k <= |w.past|
  {
    StartAfter(w.origin, w.past, k)
  }

  lemma PastHolds(f: Filter, w: World, k: nat)
    requires PastInv(f, w) && k < |w.past|
    ensures PastExact(f, w.ledger, w.past[k]) && w.past[k].start == StartOf(w, k)
  {
    hide PastExact;
  }

  /** Every session hands out exactly the matching events from where its predecessor was acknowledged. */
  lemma EverySessionIsExact(f: Filter, m: Limits, ws: seq<World>, acts: seq<Action>, n: nat, k: nat)
    requires IsRun(f, m, ws, acts) && n < |ws|
    requires k < |ws[n].past| || (k == |ws[n].past| && ws[n].phase.Streaming?)
    ensures StartOf(ws[n], k) <= PositionIn(ws[n], k) <= |ws[n].ledger|
    ensures DeliveredIn(ws[n], k) == Filtered(f, ws[n].ledger[StartOf(ws[n], k)..PositionIn(ws[n], k)])
  {
    hide Filtered, Inv, IsRun;
    RunKeepsPast(f, m, ws, acts, n);
    if k == |ws[n].past| {
      DeliveryIsExact(f, m, ws, acts, n);
    } else {
      PastHolds(f, ws[n], k);
    }
  }

  lemma OneSessionAscends(f: Filter, ledger: seq<Event>, x: Ended)
    requires PastExact(f, ledger, x)
    ensures x.start <= x.cut
  {
    hide Filtered;
  }

  /** No session starts before an earlier one did. */
  lemma {:induction false} StartsAscend(f: Filter, w: World, i: nat, j: nat)
    requires PastInv(f, w) && i <= j <= |w.past|
    ensures StartOf(w, i) <= StartOf(w, j)
  {
    hide PastInv, PastExact, Filtered;
    if i < j {
      StartsAscend(f, w, i, j - 1);
      PastHolds(f, w, j - 1);
      OneSessionAscends(f, w.ledger, w.past[j - 1]);
    }
  }

  lemma RunLedgerIsNumbered(f: Filter, m: Limits, ws: seq<World>, acts: seq<Action>, n: nat)
    requires IsRun(f, m, ws, acts) && n < |ws|
    ensures Numbered(ws[n].ledger)
  {
    RunKeeps(f, m, ws, acts, n);
    ChainIsNumbered(ws[n].ledger);
  }

  /**
    An event is handed out again by a later session exactly if that session has come as far and the
    event was unacknowledged at every disconnect in between. What was acknowledged never comes again,
    and within a session nothing is repeated.
   */
  lemma HandedOutAgainIffUnacknowledged(
    f: Filter, m: Limits, ws: seq<World>, acts: seq<Action>, n: nat, a: nat, b: nat, e: Event)
    requires IsRun(f, m, ws, acts) && n < |ws|
    requires a < b && (b < |ws[n].past| || (b == |ws[n].past| && ws[n].phase.Streaming?))
    requires e in DeliveredIn(ws[n], a)
    ensures e in DeliveredIn(ws[n], b)
       <==> e.seqNo <= PositionIn(ws[n], b) && forall k :: a <= k < b ==> ws[n].past[k].cut < e.seqNo
  {
    hide Filtered, PastInv, Passes, Inv, IsRun, DeliveredIn, PositionIn;
    var w := ws[n];
    RunLedgerIsNumbered(f, m, ws, acts, n);
    RunKeepsPast(f, m, ws, acts, n);
    EverySessionIsExact(f, m, ws, acts, n, a);
    EverySessionIsExact(f, m, ws, acts, n, b);
    FilteredHolds(f, w.ledger, StartOf(w, a), PositionIn(w, a), e);
    FilteredHolds(f, w.ledger, StartOf(w, b), PositionIn(w, b), e);
    forall k | a <= k < b
      ensures w.past[k].cut <= StartOf(w, b)
    {
      StartsAscend(f, w, k + 1, b);
    }
  }

  lemma QuietStateIsComplete(f: Filter, m: Limits, w: World)
    requires Inv(f, m, w) && w.phase.Streaming?
    requires forall k :: 1 <= k <= |w.ledger| ==> k in w.broadcast
    requires w.phase.session.waiting && w.phase.live.attached && w.phase.live.queue == []
    ensures w.phase.session.position == At(w.ledger, |w.ledger|)
    ensures w.origin <= |w.ledger| && w.archive + w.delivered == Filtered(f, w.ledger[w.origin..])
  {
    hide Filtered;
    StreamIsExact(f, m, w);
    assert |w.ledger| > 0 ==> |w.ledger| in w.broadcast;
    assert w.ledger[w.origin..|w.ledger|] == w.ledger[w.origin..];
  }

  /**
    Nothing is lost in the handoff: when every committed event has been broadcast, and the consumer
    of a subscription that was not closed waits on an empty queue, it has received every matching
    event of the ledger since the very first cursor.
   */
  lemma QuietMeansComplete(f: Filter, m: Limits, ws: seq<World>, acts: seq<Action>, n: nat)
    requires IsRun(f, m, ws, acts) && n < |ws| && ws[n].phase.Streaming?
    requires forall k :: 1 <= k <= |ws[n].ledger| ==> k in ws[n].broadcast
    requires ws[n].phase.session.waiting && ws[n].phase.live.attached && ws[n].phase.live.queue == []
    ensures ws[n].phase.session.position == At(ws[n].ledger, |ws[n].ledger|)
    ensures ws[n].origin <= |ws[n].ledger|
    ensures ws[n].archive + ws[n].delivered == Filtered(f, ws[n].ledger[ws[n].origin..])
  {
    hide Inv;
    RunKeeps(f, m, ws, acts, n);
    QuietStateIsComplete(f, m, ws[n]);
  }

  /** The window holds exactly what is unacknowledged, and it is bounded. */
  lemma WindowIsExact(f: Filter, m: Limits, ws: seq<World>, acts: seq<Action>, n: nat)
    requires IsRun(f, m, ws, acts) && n < |ws| && ws[n].phase.Streaming?
    ensures var s := ws[n].phase.session;
            && s.acknowledged.seqNo <= s.position.seqNo <= |ws[n].ledger|
            && s.outstanding == Positions(Filtered(f, ws[n].ledger[s.acknowledged.seqNo..s.position.seqNo]))
            && |s.outstanding| <= m.maxInFlight
  {
    RunKeeps(f, m, ws, acts, n);
  }

  /** Where a client would resume: at what it last acknowledged. */
  function Cursor(w: World): Position {
    if w.phase.Streaming? then w.phase.session.acknowledged else w.phase.cursor
  }

  lemma ActionKeepsCursor(f: Filter, m: Limits, w: World, a: Action)
    requires ValidLimits(m) && Inv(f, m, w) && Enabled(f, m, w, a)
    ensures Cursor(w).seqNo <= Cursor(Take(f, m, w, a)).seqNo
  {
    hide Filtered, Placed;
    if a.Ack? {
      ChainIsNumbered(w.ledger);
      AcknowledgeKeeps(f, m, w.ledger, w.phase.session, a.position);
    }
  }

  /** The acknowledged cursor never regresses, across acknowledgements, closes and reconnections. */
  lemma {:induction false} CursorNeverRegresses(f: Filter, m: Limits, ws: seq<World>, acts: seq<Action>, i: nat, j: nat)
    requires IsRun(f, m, ws, acts) && i <= j < |ws|
    ensures Cursor(ws[i]).seqNo <= Cursor(ws[j]).seqNo
  {
    hide Inv, Take, Enabled, Cursor;
    if i < j {
      CursorNeverRegresses(f, m, ws, acts, i, j - 1);
      RunKeeps(f, m, ws, acts, j - 1);
      assert Enabled(f, m, ws[j - 1], acts[j - 1]);
      ActionKeepsCursor(f, m, ws[j - 1], acts[j - 1]);
    }
  }

  /** Reconnecting at the acknowledged cursor is never rejected. */
  lemma ResumeIsAccepted(f: Filter, m: Limits, ws: seq<World>, acts: seq<Action>, n: nat)
    requires IsRun(f, m, ws, acts) && n < |acts| && acts[n].CaptureHead?
    ensures ws[n + 1].phase.Streaming? && ws[n + 1].phase.session.position == Cursor(ws[n])
  {
    RunKeeps(f, m, ws, acts, n);
    CaptureKeeps(f, m, ws[n]);
  }
}
