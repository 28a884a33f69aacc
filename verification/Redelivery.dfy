/**
  A run in which an event is handed out twice: the client takes it, disconnects before it acknowledges
  it, and is handed it again after it has reconnected.
 */
module Redelivery {
  import opened Types
  import opened Chain
  import opened Subscriptions
  import opened SyncRuns
  import Instances

  const EVERYTHING := Filter(None, None)
  const LIMITS := Limits(1, 1, 1)

  const EVENT := Seal(Instances.Ask(1, OtherEvent(1)), 1, 1, NoHash)
  const LEDGER := [EVENT]
  const ORIGIN := Position(0, NoHash)
  const TAKEN := Position(1, EVENT.hash)

  const OPENED := Session(ORIGIN, ORIGIN, 1, [], None, [], false, false)
  const HANDED_OUT := OPENED.(position := TAKEN, outstanding := [TAKEN])
  const TAKE := Consume(HANDED_OUT, NewLive(0), Delivered(EVENT))

  /** The worlds of one session, with the given earlier ones. */
  function Waiting(past: seq<Ended>): World {
    World(LEDGER, {}, 0, Idle(ORIGIN), [], [], past)
  }

  function Opening(past: seq<Ended>): World {
    Waiting(past).(phase := Connecting(ORIGIN, NewLive(0)))
  }

  function Open(past: seq<Ended>): World {
    Waiting(past).(phase := Streaming(0, OPENED, NewLive(0)))
  }

  function Holding(past: seq<Ended>): World {
    Waiting(past).(phase := Streaming(0, HANDED_OUT, NewLive(0)), delivered := [EVENT])
  }

  const UNACKNOWLEDGED := Ended(0, 1, 0, [EVENT])

  lemma OneSession(past: seq<Ended>)
    ensures Enabled(EVERYTHING, LIMITS, Waiting(past), Connect)
    ensures Take(EVERYTHING, LIMITS, Waiting(past), Connect) == Opening(past)
    ensures Enabled(EVERYTHING, LIMITS, Opening(past), CaptureHead)
    ensures Take(EVERYTHING, LIMITS, Opening(past), CaptureHead) == Open(past)
    ensures Enabled(EVERYTHING, LIMITS, Open(past), TAKE)
    ensures Take(EVERYTHING, LIMITS, Open(past), TAKE) == Holding(past)
    ensures Enabled(EVERYTHING, LIMITS, Holding(past), Disconnect)
    ensures Take(EVERYTHING, LIMITS, Holding(past), Disconnect) == Waiting(past + [UNACKNOWLEDGED])
  {
    assert LEDGER[0..1] == LEDGER && LEDGER[..0] == [];
    assert Filtered(EVERYTHING, LEDGER) == [EVENT];
    assert Retained(1, NewLive(0), NewLive(0));
  }

  lemma StartsOnAChain()
    ensures Initial(Waiting([]))
  {}

  /** Delivery is at least once, and not at most once. */
  lemma EventIsHandedOutTwice() returns (ws: seq<World>, acts: seq<Action>)
    ensures IsRun(EVERYTHING, LIMITS, ws, acts) && |ws| == 8 && |ws[7].past| == 1
    ensures EVENT in DeliveredIn(ws[7], 0) && EVENT in DeliveredIn(ws[7], 1)
  {
    hide Take, Enabled;
    OneSession([]);
    OneSession([UNACKNOWLEDGED]);
    assert [] + [UNACKNOWLEDGED] == [UNACKNOWLEDGED];
    assert Initial(Waiting([])) by {
      StartsOnAChain();
    }
    var past := [UNACKNOWLEDGED];
    ws := [Waiting([]), Opening([]), Open([]), Holding([]), Waiting(past), Opening(past), Open(past), Holding(past)];
    acts := [Connect, CaptureHead, TAKE, Disconnect, Connect, CaptureHead, TAKE];
  }
}
