/**
  From the commit to the subscriber: the outbox and the subscription protocol of one twin, side by
  side over one broker. A write adds an event and its row in one step; a relay may offer an event
  to the broker only with a ticket of a claim, and marks a row only after offering its event.
  Relays may still die between the two, stall, or offer an event again.
 */
module Handoff {
  import opened Types
  import opened Chain
  import opened Subscriptions
  import Outbox
  import SyncRuns

  /** `offered` are the tickets whose event went to the broker. */
  datatype World = World(outbox: Outbox.World, offered: set<Outbox.Ticket>, client: SyncRuns.World)

  datatype Step =
    | Write(req: Request, now: int)
    | WriteElsewhere(key: Outbox.RowKey, now: int)
    | Offer(ticket: Outbox.Ticket)
    | Mark(ticket: Outbox.Ticket, now: int)
    | OtherOutbox(step: Outbox.Step)
    | Arrive(origin: nat)
    | Client(action: SyncRuns.Action)

  const NOBODY := SyncRuns.World([], {}, 0, SyncRuns.Idle(At([], 0)), [], [], [])

  const START := World(Outbox.START, {}, NOBODY)

  /** A client shows up at some place of the chain, before anything was handed out to it. */
  function Newcomer(c: SyncRuns.World, origin: nat): SyncRuns.World
    requires origin <= |c.ledger|
  {
    SyncRuns.World(c.ledger, c.broadcast, origin, SyncRuns.Idle(At(c.ledger, origin)), [], [], [])
  }

  function NextKey(twin: Id, w: World): Outbox.RowKey {
    Outbox.RowKey(twin, |w.client.ledger| + 1)
  }

  /** The step that the outbox takes, if any. */
  function OnOutbox(twin: Id, w: World, s: Step): Option<Outbox.Step> {
    match s
    case Write(_, now) => Some(Outbox.Step.Commit(NextKey(twin, w), now))
    case WriteElsewhere(key, now) => Some(Outbox.Step.Commit(key, now))
    case Mark(ticket, now) => Some(Outbox.MarkStep(ticket, now))
    case OtherOutbox(step) => Some(step)
    case _ => None
  }

  /** The step that the ledger, the broker or the client take, if any; the broker drops other twins' events. */
  function OnClient(twin: Id, s: Step): Option<SyncRuns.Action> {
    match s
    case Write(req, now) => Some(SyncRuns.AppendEvent(req, now))
    case Offer(ticket) => if ticket.key.twin == twin then Some(SyncRuns.Broadcast(ticket.key.seqNo)) else None
    case Client(action) => Some(action)
    case _ => None
  }

  ghost predicate Enabled(twin: Id, f: Filter, m: Limits, w: World, s: Step) {
    && (match s
        case Write(req, _) => req.twin == twin
        case WriteElsewhere(key, _) => key.twin != twin
        case Offer(ticket) => ticket in w.outbox.handed
        case Mark(ticket, _) => ticket in w.offered
        case OtherOutbox(step) => step.ClaimStep? || step.ReleaseStep? || step.PruneStep?
        case Arrive(origin) => origin <= |w.client.ledger|
        case Client(action) => !action.AppendEvent? && !action.Broadcast?)
    && (OnOutbox(twin, w, s).Some? ==> Outbox.Enabled(w.outbox, OnOutbox(twin, w, s).value))
    && (OnClient(twin, s).Some? ==> SyncRuns.Enabled(f, m, w.client, OnClient(twin, s).value))
  }

  ghost function Take(twin: Id, f: Filter, m: Limits, w: World, s: Step): World
    requires Enabled(twin, f, m, w, s)
  {
    World(
      match OnOutbox(twin, w, s)
      case Some(step) => Outbox.Take(w.outbox, step)
      case None => w.outbox,
      if s.Offer? then w.offered + {s.ticket} else w.offered,
      if s.Arrive? then Newcomer(w.client, s.origin) else
        match OnClient(twin, s)
        case Some(action) => SyncRuns.Take(f, m, w.client, action)
        case None => w.client)
  }

  /** A run starts with an empty database; the client of interest arrives at any time, at any cursor. */
  ghost predicate IsRun(twin: Id, f: Filter, m: Limits, ws: seq<World>, steps: seq<Step>) {
    && ValidLimits(m) && |ws| == |steps| + 1 && ws[0] == START
    && forall i :: 0 <= i < |steps| ==>
         Enabled(twin, f, m, ws[i], steps[i]) && ws[i + 1] == Take(twin, f, m, ws[i], steps[i])
  }

  // ---------------------------------------------------------------- what ties the parts together

  /** The twin's rows are those of its ledger, and what is published or offered reached the broker. */
  ghost predicate Joined(twin: Id, w: World) {
    && (forall k :: k in w.outbox.committed && k.twin == twin ==> 1 <= k.seqNo <= |w.client.ledger|)
    && (forall n :: 1 <= n <= |w.client.ledger| ==> Outbox.RowKey(twin, n) in w.outbox.committed)
    && (forall t :: t in w.offered && t.key.twin == twin ==> t.key.seqNo in w.client.broadcast)
    && (forall k :: k in w.outbox.published && k.twin == twin ==> k.seqNo in w.client.broadcast)
  }

  ghost predicate Inv(twin: Id, f: Filter, m: Limits, w: World) {
    Outbox.Inv(w.outbox) && SyncRuns.Inv(f, m, w.client) && Joined(twin, w)
  }

  /** A write is never refused by the outbox, and a ticket always leads to an event of the ledger. */
  lemma WritesAndOffersAreEnabled(twin: Id, f: Filter, m: Limits, w: World, s: Step)
    requires Inv(twin, f, m, w)
    requires (s.Write? && s.req.twin == twin) || (s.Offer? && s.ticket in w.outbox.handed)
    ensures Enabled(twin, f, m, w, s)
  {
    hide SyncRuns.Inv;
    if s.Offer? {
      assert s.ticket.key in w.outbox.committed;
    }
  }

  /** What a step does to the ledger and to the broker. */
  lemma ClientSide(twin: Id, f: Filter, m: Limits, w: World, s: Step)
    requires Enabled(twin, f, m, w, s)
    ensures var v := Take(twin, f, m, w, s);
            && |v.client.ledger| == |w.client.ledger| + (if s.Write? then 1 else 0)
            && v.client.broadcast
               == w.client.broadcast
                  + (if s.Offer? && s.ticket.key.twin == twin then {s.ticket.key.seqNo} else {})
  {
    hide Consumed, Placed, Publish, Acknowledge, OpenSession, IsChain, Filtered, SyncRuns.TakeThrough;
  }

  /** What a step does to the committed and to the published keys. */
  lemma OutboxSide(twin: Id, f: Filter, m: Limits, w: World, s: Step)
    requires Enabled(twin, f, m, w, s)
    ensures var v := Take(twin, f, m, w, s);
            && v.outbox.committed == w.outbox.committed + (if s.Write? then {NextKey(twin, w)}
                                                           else if s.WriteElsewhere? then {s.key} else {})
            && forall k :: k in v.outbox.published ==> k in w.outbox.published || (s.Mark? && k == s.ticket.key)
  {
    hide SyncRuns.Take, SyncRuns.Enabled;
  }

  lemma StepKeepsJoined(twin: Id, f: Filter, m: Limits, w: World, s: Step)
    requires Joined(twin, w) && Enabled(twin, f, m, w, s)
    ensures Joined(twin, Take(twin, f, m, w, s))
  {
    ClientSide(twin, f, m, w, s);
    OutboxSide(twin, f, m, w, s);
    hide Outbox.Take, Outbox.Enabled, SyncRuns.Take, SyncRuns.Enabled;
  }

  lemma NewcomerInv(f: Filter, m: Limits, c: SyncRuns.World, origin: nat)
    requires SyncRuns.Inv(f, m, c) && origin <= |c.ledger|
    ensures SyncRuns.Inv(f, m, Newcomer(c, origin))
  {
    hide Filtered, SyncRuns.CursorInv, SyncRuns.LiveInv, SyncRuns.StreamInv;
    assert SyncRuns.Initial(Newcomer(c, origin));
    SyncRuns.InitialInv(f, m, Newcomer(c, origin));
  }

  lemma StepKeepsInv(twin: Id, f: Filter, m: Limits, w: World, s: Step)
    requires ValidLimits(m) && Inv(twin, f, m, w) && Enabled(twin, f, m, w, s)
    ensures Inv(twin, f, m, Take(twin, f, m, w, s))
  {
    hide Outbox.Inv, Outbox.Take, Outbox.Enabled, SyncRuns.Inv, SyncRuns.Take, SyncRuns.Enabled, Joined, Newcomer;
    StepKeepsJoined(twin, f, m, w, s);
    if OnOutbox(twin, w, s).Some? {
      Outbox.StepKeepsInv(w.outbox, OnOutbox(twin, w, s).value);
    }
    if OnClient(twin, s).Some? {
      SyncRuns.ActionKeeps(f, m, w.client, OnClient(twin, s).value);
    } else if s.Arrive? {
      NewcomerInv(f, m, w.client, s.origin);
    }
  }

  lemma StartInv(twin: Id, f: Filter, m: Limits)
    ensures Inv(twin, f, m, START)
  {
    SyncRuns.InitialInv(f, m, NOBODY);
  }

  lemma {:induction false} RunKeepsInv(twin: Id, f: Filter, m: Limits, ws: seq<World>, steps: seq<Step>, n: nat)
    requires IsRun(twin, f, m, ws, steps) && n < |ws|
    ensures Inv(twin, f, m, ws[n])
  {
    hide Inv, Take, Enabled;
    if n == 0 {
      StartInv(twin, f, m);
    } else {
      RunKeepsInv(twin, f, m, ws, steps, n - 1);
      assert Enabled(twin, f, m, ws[n - 1], steps[n - 1]);
      StepKeepsInv(twin, f, m, ws[n - 1], steps[n - 1]);
    }
  }

  // ---------------------------------------------------------------- from the commit to the subscriber

  predicate Pending(w: World, k: Outbox.RowKey) {
    k in w.outbox.table && w.outbox.table[k].publishedAt.None?
  }

  /** Every event of the twin is pending in the outbox, or it reached the broker. */
  lemma PendingOrBroadcast(twin: Id, f: Filter, m: Limits, ws: seq<World>, steps: seq<Step>, n: nat, k: nat)
    requires IsRun(twin, f, m, ws, steps) && n < |ws| && 1 <= k <= |ws[n].client.ledger|
    ensures Pending(ws[n], Outbox.RowKey(twin, k)) || k in ws[n].client.broadcast
  {
    hide SyncRuns.Inv, IsRun;
    RunKeepsInv(twin, f, m, ws, steps, n);
    assert Outbox.RowKey(twin, k) in ws[n].outbox.committed;
  }

  lemma BroadcastIsHeld(f: Filter, m: Limits, c: SyncRuns.World, k: nat)
    requires SyncRuns.Inv(f, m, c) && c.phase.Streaming? && c.phase.live.attached && k in c.broadcast
    ensures k <= Horizon(c.phase.session) || Holds(c.phase.live, k)
  {
    hide SessionInv, Filtered, IsChain;
    assert SyncRuns.StreamInv(f, m, c, c.phase.start, c.phase.session, c.phase.live);
  }

  lemma LedgerIsNumbered(f: Filter, m: Limits, c: SyncRuns.World)
    requires SyncRuns.Inv(f, m, c)
    ensures Numbered(c.ledger)
  {
    ChainIsNumbered(c.ledger);
  }

  /** A matching event was handed out exactly if the session has read past it. */
  lemma HandedOutIffRead(f: Filter, m: Limits, c: SyncRuns.World, k: nat)
    requires SyncRuns.Inv(f, m, c) && c.phase.Streaming?
    requires c.origin < k <= |c.ledger| && Passes(f, c.ledger[k - 1])
    ensures c.ledger[k - 1] in c.archive + c.delivered <==> k <= c.phase.session.position.seqNo
  {
    hide SyncRuns.Inv, Passes, Filtered;
    LedgerIsNumbered(f, m, c);
    SyncRuns.StreamIsExact(f, m, c);
    FilteredHolds(f, c.ledger, c.origin, c.phase.session.position.seqNo, c.ledger[k - 1]);
  }

  /**
    Under every interleaving of writers, relays that may die or stall, the broker and the client, a
    matching event after the client's first cursor was handed out, or the session will still read it
    from the ledger, or the outbox will still offer it, or it waits in the queue of the attached
    subscription.
   */
  lemma NoEventIsLost(twin: Id, f: Filter, m: Limits, ws: seq<World>, steps: seq<Step>, n: nat, k: nat)
    requires IsRun(twin, f, m, ws, steps) && n < |ws|
    requires ws[n].client.phase.Streaming? && ws[n].client.phase.live.attached
    requires ws[n].client.origin < k <= |ws[n].client.ledger| && Passes(f, ws[n].client.ledger[k - 1])
    ensures var c := ws[n].client;
            || c.ledger[k - 1] in c.archive + c.delivered
            || c.phase.session.position.seqNo < k <= c.phase.session.replayHead
            || Pending(ws[n], Outbox.RowKey(twin, k))
            || Holds(c.phase.live, k)
  {
    hide SyncRuns.Inv, Outbox.Inv, IsRun, Joined, Pending, Holds, Passes;
    var c := ws[n].client;
    RunKeepsInv(twin, f, m, ws, steps, n);
    PendingOrBroadcast(twin, f, m, ws, steps, n, k);
    if k in c.broadcast {
      BroadcastIsHeld(f, m, c, k);
    }
    HandedOutIffRead(f, m, c, k);
  }

  /**
    Once the outbox holds no pending row of the twin, a consumer that waits on the empty queue of an
    attached subscription has every matching event since its first cursor.
   */
  lemma DrainedMeansComplete(twin: Id, f: Filter, m: Limits, ws: seq<World>, steps: seq<Step>, n: nat)
    requires IsRun(twin, f, m, ws, steps) && n < |ws| && ws[n].client.phase.Streaming?
    requires forall k :: 1 <= k <= |ws[n].client.ledger| ==> !Pending(ws[n], Outbox.RowKey(twin, k))
    requires var c := ws[n].client; c.phase.session.waiting && c.phase.live.attached && c.phase.live.queue == []
    ensures var c := ws[n].client;
            && c.origin <= |c.ledger| && c.phase.session.position == At(c.ledger, |c.ledger|)
            && c.archive + c.delivered == Filtered(f, c.ledger[c.origin..])
  {
    hide SyncRuns.Inv, Outbox.Inv, IsRun, Joined, Pending, Filtered;
    RunKeepsInv(twin, f, m, ws, steps, n);
    forall k | 1 <= k <= |ws[n].client.ledger|
      ensures k in ws[n].client.broadcast
    {
      PendingOrBroadcast(twin, f, m, ws, steps, n, k);
    }
    SyncRuns.QuietStateIsComplete(f, m, ws[n].client);
  }
}
