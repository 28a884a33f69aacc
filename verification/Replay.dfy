/**
  Saving, choosing and pruning snapshots, and rebuilding a state from the newest usable snapshot
  and the tail of the ledger. However snapshots were taken and pruned, the result is the plain fold.
 */
module Replay {
  import opened Types
  import opened Chain
  import opened Aggregate
  import opened Fold
  import opened Outbox
  import opened LineageHistory
  import opened Snapshots
  import opened EventStore

  const REPLAY_PLANES: set<Plane> := {Authoritative, ProjectionPlane}

  // ---------------------------------------------------------------- the snapshot table

  function SaveSnapshot(db: Db, x: Snapshot): (Db, Result<Snapshot>) {
    var key := RowKey(x.twinId, x.seqNo);
    var events := Ledger(db, x.twinId);
    if !SnapshotVerifies(x) || x.seqNo > |events| || events[x.seqNo - 1].hash != x.lastHash then (db, Err(IntegrityError))
    else if key in db.snapshots then
      (db, if SnapshotVerifies(db.snapshots[key]) && db.snapshots[key].stateHash == x.stateHash
           then Ok(db.snapshots[key]) else Err(IntegrityError))
    else (db.(snapshots := db.snapshots[key := x]), Ok(x))
  }

  /** The sequence numbers at which a twin has snapshots. */
  function SnapshotNumbers(snapshots: map<RowKey, Snapshot>, twin: Id): set<nat> {
    set k | k in snapshots && k.twin == twin :: k.seqNo
  }

  /** Those that are not beyond the bound and belong to an event. */
  function UsableSnapshots(db: Db, twin: Id, upTo: Option<int>): set<nat> {
    set n | n in SnapshotNumbers(db.snapshots, twin)
      && 1 <= n <= |Ledger(db, twin)| && (upTo.Some? ==> n <= upTo.value)
  }

  ghost predicate IsGreatest(m: nat, s: set<nat>) {
    m in s && forall x :: x in s ==> x <= m
  }

  lemma {:induction false} SetHasGreatest(s: set<nat>)
    requires s != {}
    ensures exists m :: IsGreatest(m, s)
  {
    var k :| k in s;
    if s == {k} {
      assert IsGreatest(k, s);
    } else {
      SetHasGreatest(s - {k});
      var n :| IsGreatest(n, s - {k});
      var m := if k > n then k else n;
      forall x | x in s
        ensures x <= m
      {
        assert x == k || x in s - {k};
      }
      assert IsGreatest(m, s);
    }
  }

  function Greatest(s: set<nat>): (m: nat)
    requires s != {}
    ensures IsGreatest(m, s)
  {
    SetHasGreatest(s);
    var m :| m in s && forall x :: x in s ==> x <= m;
    m
  }

  function LoadSnapshot(db: Db, twin: Id, upTo: Option<int>): Result<Option<Snapshot>> {
    var usable := UsableSnapshots(db, twin, upTo);
    if usable == {} then Ok(None) else
      var n := Greatest(usable);
      assert RowKey(twin, n) in db.snapshots;
      var x := db.snapshots[RowKey(twin, n)];
      var events := Ledger(db, twin);
      if !SnapshotVerifies(x) || events[n - 1].hash != x.lastHash then Err(IntegrityError)
      else Ok(Some(x))
  }

  function Newer(all: set<nat>, n: nat): set<nat> {
    set m | m in all && m > n
  }

  /** Pruning keeps, of one twin, the snapshots that have fewer than `keep` newer ones. */
  function PruneSnapshots(db: Db, twin: Id, keep: nat): Db {
    var all := SnapshotNumbers(db.snapshots, twin);
    db.(snapshots := map k | k in db.snapshots && (k.twin != twin || |Newer(all, k.seqNo)| < keep) :: db.snapshots[k])
  }

  lemma {:induction false} SubsetIsSmaller(a: set<nat>, b: set<nat>)
    requires a <= b
    ensures |a| <= |b| && (a != b ==> |a| < |b|)
  {
    if a != {} {
      var x :| x in a;
      SubsetIsSmaller(a - {x}, b - {x});
    }
  }

  /** The greatest `keep` numbers are those with fewer than `keep` newer ones. */
  lemma KeptHaveFewNewer(all: set<nat>, kept: set<nat>, rest: set<nat>, keep: nat, n: nat)
    requires all == kept + rest && kept !! rest && n in all && |kept| <= keep && (rest != {} ==> |kept| == keep)
    requires forall x, y :: x in kept && y in rest ==> x > y
    ensures |Newer(all, n)| < keep <==> n in kept
  {
    if n in kept {
      forall m | m in Newer(all, n)
        ensures m in kept
      {}
      SubsetIsSmaller(Newer(all, n), kept);
    } else {
      SubsetIsSmaller(kept, Newer(all, n));
    }
  }

  /** What a pruning that keeps the newest `keep` snapshots deletes. */
  ghost predicate IsBeyondNewest(all: set<nat>, keep: nat, rest: set<nat>) {
    forall n :: n in rest <==> n in all && |Newer(all, n)| >= keep
  }

  /** Go down from the newest, keeping `keep` of them; what remains is to be deleted. */
  method BeyondNewest(all: set<nat>, keep: nat) returns (rest: set<nat>)
    ensures IsBeyondNewest(all, keep, rest)
  {
    var kept: set<nat> := {};
    rest := all;
    while rest != {} && |kept| < keep
      invariant kept + rest == all && kept !! rest && |kept| <= keep
      invariant forall x, y :: x in kept && y in rest ==> x > y
      decreases rest
    {
      var newest := Greatest(rest);
      kept, rest := kept + {newest}, rest - {newest};
    }
    forall n | n in all
      ensures |Newer(all, n)| < keep <==> n in kept
    {
      KeptHaveFewNewer(all, kept, rest, keep, n);
    }
  }

  ghost predicate SnapshotSound(db: Db, k: RowKey, x: Snapshot) {
    var events := Ledger(db, k.twin);
    && 1 <= k.seqNo <= |events|
    && FoldAll(k.twin, events[..k.seqNo]).Ok?
    && x == ToSnapshot(FoldAll(k.twin, events[..k.seqNo]).value, x.createdAt)
  }

  /** Each snapshot is the state that the ledger gave at its sequence number. */
  ghost predicate SnapshotsSound(db: Db) {
    forall k :: k in db.snapshots ==> SnapshotSound(db, k, db.snapshots[k])
  }

  /** Appends extend ledgers and leave snapshots alone, so sound snapshots stay sound. */
  lemma SnapshotsSurviveGrowth(db: Db, after: Db)
    requires SnapshotsSound(db) && after.snapshots == db.snapshots
    requires forall t :: Ledger(db, t) <= Ledger(after, t)
    ensures SnapshotsSound(after)
  {
    hide FoldAll, ToSnapshot;
    forall k | k in after.snapshots
      ensures SnapshotSound(after, k, after.snapshots[k])
    {
      assert SnapshotSound(db, k, db.snapshots[k]);
      assert Ledger(db, k.twin) <= Ledger(after, k.twin);
      assert Ledger(after, k.twin)[..k.seqNo] == Ledger(db, k.twin)[..k.seqNo];
    }
  }

  lemma PruningKeepsSound(db: Db, twin: Id, keep: nat)
    requires SnapshotsSound(db)
    ensures SnapshotsSound(PruneSnapshots(db, twin, keep))
  {
    var after := PruneSnapshots(db, twin, keep);
    forall k | k in after.snapshots
      ensures SnapshotSound(after, k, after.snapshots[k])
    {
      assert SnapshotSound(db, k, db.snapshots[k]);
    }
  }

  /** A state replayed from a non-empty ledger names its twin and its place in the chain. */
  lemma ReplayedPosition(db: Db, twin: Id, n: nat)
    requires StoreSound(db) && 1 <= n <= |Ledger(db, twin)| && FoldAll(twin, Ledger(db, twin)[..n]).Ok?
    ensures var s := FoldAll(twin, Ledger(db, twin)[..n]).value;
            && s.twinId == twin != NO_ID && s.seqNo == n
            && s.lastHash == Ledger(db, twin)[n - 1].hash != NoHash
  {
    var events := Ledger(db, twin)[..n];
    FoldPosition(EmptyTwin(twin), events);
    LedgerIsSound(db, twin);
    PrefixReplays(EmptyTwin(twin), events, n - 1);
    assert events[n - 1] in Ledger(db, twin);
    assert ReplayStep(FoldAll(twin, events[..n - 1]).value, events[n - 1]).Ok?;
    assert ValidEvent(events[n - 1]);
    assert LinkHolds(Ledger(db, twin), n - 1);
  }

  /** Saving what a full replay of the ledger gave never fails and keeps the table sound. */
  lemma SavingAReplayKeepsSound(db: Db, twin: Id, createdAt: int)
    requires StoreSound(db) && SnapshotsSound(db)
    requires FoldAll(twin, Ledger(db, twin)).Ok? && Ledger(db, twin) != []
    ensures var (after, r) := SaveSnapshot(db, ToSnapshot(FoldAll(twin, Ledger(db, twin)).value, createdAt));
            r.Ok? && SnapshotsSound(after)
  {
    hide Apply, StoreSound, ToDict;
    var events := Ledger(db, twin);
    var s := FoldAll(twin, events).value;
    var x, key := ToSnapshot(s, createdAt), RowKey(twin, |events|);
    assert events[..|events|] == events;
    ReplayedPosition(db, twin, |events|);
    var after := SaveSnapshot(db, x).0;
    if key in db.snapshots {
      assert SnapshotSound(db, key, db.snapshots[key]);
    }
    forall k | k in after.snapshots
      ensures SnapshotSound(after, k, after.snapshots[k])
    {
      if k != key {
        assert SnapshotSound(db, k, db.snapshots[k]);
      }
    }
  }

  // ---------------------------------------------------------------- rebuilding

  /** The events before the first one recorded after the given time. */
  function KnownPrefix(events: seq<Event>, asOf: Option<int>): seq<Event> {
    if asOf.None? || events == [] || events[0].recordedAt > asOf.value then
      if asOf.None? then events else []
    else [events[0]] + KnownPrefix(events[1..], asOf)
  }

  function RebuildStart(db: Db, twin: Id, useSnapshots: bool, upTo: Option<int>, asOf: Option<int>): Result<Twin> {
    if !useSnapshots || asOf.Some? then Ok(EmptyTwin(twin)) else
      match LoadSnapshot(db, twin, upTo)
      case Err(e) => Err(e)
      case Ok(None) => Ok(EmptyTwin(twin))
      case Ok(Some(x)) => Restore(x)
  }

  function Rebuild(db: Db, twin: Id, useSnapshots: bool, upTo: Option<int>, asOf: Option<int>): Result<Twin> {
    match RebuildStart(db, twin, useSnapshots, upTo, asOf)
    case Err(e) => Err(e)
    case Ok(s) =>
      FoldFrom(s, KnownPrefix(Load(Ledger(db, twin), s.seqNo, upTo, Some(REPLAY_PLANES), None), asOf))
  }

  /** How many events of a ledger lie within the bound. */
  function Bounded(events: seq<Event>, upTo: Option<int>): nat {
    if upTo.Some? && upTo.value < |events| then (if upTo.value < 0 then 0 else upTo.value) else |events|
  }

  lemma ReplayLoadsSlice(db: Db, twin: Id, after: nat, upTo: Option<int>)
    requires StoreSound(db) && after <= Bounded(Ledger(db, twin), upTo)
    ensures Load(Ledger(db, twin), after, upTo, Some(REPLAY_PLANES), None)
         == Ledger(db, twin)[after..Bounded(Ledger(db, twin), upTo)]
  {
    LedgerIsSound(db, twin);
    MatchingIsSlice(Ledger(db, twin), after, upTo, Some(REPLAY_PLANES));
  }

  /** A usable snapshot is the fold of a prefix within the bound. */
  lemma StartIsPrefix(db: Db, twin: Id, useSnapshots: bool, upTo: Option<int>) returns (n: nat)
    requires StoreSound(db) && SnapshotsSound(db)
    ensures n <= Bounded(Ledger(db, twin), upTo)
    ensures FoldAll(twin, Ledger(db, twin)[..n]).Ok? && FoldAll(twin, Ledger(db, twin)[..n]).value.seqNo == n
    ensures RebuildStart(db, twin, useSnapshots, upTo, None) == FoldAll(twin, Ledger(db, twin)[..n])
  {
    hide Apply, StoreSound, ToDict;
    var usable := UsableSnapshots(db, twin, upTo);
    if useSnapshots && usable != {} {
      n := Greatest(usable);
      var key := RowKey(twin, n);
      assert key in db.snapshots && SnapshotSound(db, key, db.snapshots[key]);
      ReplayedPosition(db, twin, n);
      RestoreRoundTrip(FoldAll(twin, Ledger(db, twin)[..n]).value, db.snapshots[key].createdAt);
    } else {
      n := 0;
    }
  }

  /**
    Snapshot plus tail equals full replay: with any sound snapshots, taken at any points and pruned
    in any way, a rebuild up to any bound gives exactly what folding the ledger from the start gives.
   */
  lemma SnapshotReplayIsFullReplay(db: Db, twin: Id, useSnapshots: bool, upTo: Option<int>)
    requires StoreSound(db) && SnapshotsSound(db)
    ensures Rebuild(db, twin, useSnapshots, upTo, None)
         == FoldAll(twin, Ledger(db, twin)[..Bounded(Ledger(db, twin), upTo)])
  {
    hide ReplayStep, StoreSound, SnapshotsSound, RebuildStart, Load;
    var events := Ledger(db, twin);
    var m := Bounded(events, upTo);
    var n := StartIsPrefix(db, twin, useSnapshots, upTo);
    var tail := events[n..m];
    assert events[..n] + tail == events[..m];
    FoldSplit(EmptyTwin(twin), events[..n], tail);
    ReplayLoadsSlice(db, twin, n, upTo);
    assert KnownPrefix(tail, None) == tail;
  }

  /** A rebuild as of a recorded time, within any bound, folds the events known by then, ignoring snapshots. */
  lemma RecordedTimeReplay(db: Db, twin: Id, useSnapshots: bool, upTo: Option<int>, asOf: int)
    requires StoreSound(db)
    ensures var events := Ledger(db, twin)[..Bounded(Ledger(db, twin), upTo)];
            Rebuild(db, twin, useSnapshots, upTo, Some(asOf)) == FoldAll(twin, KnownPrefix(events, Some(asOf)))
  {
    hide Apply, LoadSnapshot, Restore, StoreSound, Load, KnownPrefix;
    ReplayLoadsSlice(db, twin, 0, upTo);
    var events, m := Ledger(db, twin), Bounded(Ledger(db, twin), upTo);
    assert events[0..m] == events[..m];
  }

  /** What was known by a time is a prefix of the ledger, and the longest one recorded by that time. */
  lemma {:induction false} KnownPrefixIsLongest(events: seq<Event>, asOf: int)
    ensures var known := KnownPrefix(events, Some(asOf));
            && known <= events
            && (forall e :: e in known ==> e.recordedAt <= asOf)
            && (|known| < |events| ==> events[|known|].recordedAt > asOf)
  {
    if events != [] && events[0].recordedAt <= asOf {
      KnownPrefixIsLongest(events[1..], asOf);
    }
  }
}
