/**
  The application service: a bounded cache of mutable state objects in front of the store. The
  cache is checked against the ledger head before use, cached objects are updated in place after
  an append and are never handed to a caller. Every method is proved for whatever the cache holds;
  `Trusted` says that it holds folds, which other processes can spoil and one process alone cannot.
 */
module Service {
  import opened Types
  import opened Chain
  import opened Aggregate
  import opened Fold
  import opened TwinObject
  import opened LineageHistory
  import opened Snapshots
  import opened EventStore
  import opened Replay
  import opened ServiceLedger
  import opened Processes
  import opened Outbox
  import opened Store

  lemma KnownPrefixStops(events: seq<Event>, asOf: Option<int>)
    ensures var known := KnownPrefix(events, asOf);
            && known <= events
            && (asOf.None? ==> known == events)
            && forall i :: 0 <= i < |events| ==>
                 (i < |known| ==> asOf.None? || events[i].recordedAt <= asOf.value)
                 && (i == |known| ==> asOf.Some? && events[i].recordedAt > asOf.value)
  {
    if asOf.Some? {
      KnownPrefixIsLongest(events, asOf.value);
      var known := KnownPrefix(events, asOf);
      assert forall i :: 0 <= i < |known| ==> known[i] in known;
    }
  }

  /** The replay loop: verify and apply each event that was known by the given time, in place. */
  method ReplayInto(state: TwinState, events: seq<Event>, asOf: Option<int>) returns (error: Option<Error>)
    modifies state
    ensures FoldFrom(old(state.View()), KnownPrefix(events, asOf))
         == if error.None? then Ok(state.View()) else Err(error.value)
  {
    hide Apply;
    var previous := state.lastHash;
    ghost var known := KnownPrefix(events, asOf);
    KnownPrefixStops(events, asOf);
    for i := 0 to |events|
      invariant i <= |known|
      invariant FoldFrom(old(state.View()), known) == FoldFrom(state.View(), known[i..])
      invariant previous == state.lastHash
    {
      if asOf.Some? && events[i].recordedAt > asOf.value {
        break;
      }
      FoldCons(state.View(), known[i..]);
      if events[i].seqNo != state.seqNo + 1 || !Verifies(events[i], previous) {
        return Some(IntegrityError);
      }
      ghost var was := state.View();
      error := state.ApplyEvent(events[i]);
      if error.Some? {
        return;
      }
      AppliedPosition(was, events[i]);
      assert known[i..][1..] == known[i + 1..];
      previous := events[i].hash;
    }
    return None;
  }

  /** Rebuild a state object from the store: newest usable snapshot, then the tail of the ledger. */
  method RebuildState(store: SQLiteEventStore, twin: Id, useSnapshots: bool, upTo: Option<int>, asOf: Option<int>)
    returns (r: Result<TwinState>)
    ensures var goal := Rebuild(store.View(), twin, useSnapshots, upTo, asOf);
            if goal.Err? then r == Err(goal.error)
            else r.Ok? && fresh(r.value) && r.value.View() == goal.value
  {
    hide Apply, ReplayStep, RebuildStart, Load, KnownPrefix;
    var start := RebuildStart(store.View(), twin, useSnapshots, upTo, asOf);
    if start.Err? {
      return Err(start.error);
    }
    var events := Load(Ledger(store.View(), twin), start.value.seqNo, upTo, Some(REPLAY_PLANES), None);
    var state := new TwinState(start.value);
    var error := ReplayInto(state, events, asOf);
    r := if error.Some? then Err(error.value) else Ok(state);
  }

  /** The recency order of an ordered dictionary after its key is moved to the end. */
  function MovedToEnd(order: seq<Id>, t: Id): seq<Id> {
    Without(order, t) + [t]
  }

  function Newest(order: seq<Id>, limit: nat): seq<Id> {
    if |order| <= limit then order else order[|order| - limit..]
  }

  lemma {:induction false} WithoutRemoves(order: seq<Id>, t: Id)
    requires Distinct(order)
    ensures Distinct(Without(order, t))
    ensures forall x :: x in Without(order, t) <==> x in order && x != t
    ensures |Without(order, t)| == if t in order then |order| - 1 else |order|
  {
    if order != [] {
      WithoutRemoves(order[1..], t);
      var rest := Without(order[1..], t);
      assert order == [order[0]] + order[1..];
      forall i, j | 0 <= i < j < |Without(order, t)|
        ensures Without(order, t)[i] != Without(order, t)[j]
      {
        if order[0] != t && i == 0 {
          assert rest[j - 1] in rest;
        }
      }
    }
  }

  lemma DistinctTail(order: seq<Id>)
    requires Distinct(order) && order != []
    ensures Distinct(order[1..]) && forall t :: t in order[1..] <==> t in order && t != order[0]
  {
    assert order == [order[0]] + order[1..];
  }

  class DigitalTwinService {
    const store: SQLiteEventStore
    const cacheEntries: nat
    const snapshotInterval: nat
    const snapshotRetention: nat
    const outboxRetention: int
    var cache: map<Id, TwinState>
    var order: seq<Id>

    constructor (store: SQLiteEventStore, cacheEntries: nat, snapshotInterval: nat, snapshotRetention: nat,
                 outboxRetention: int)
      requires StoreSound(store.View()) && SnapshotsSound(store.View()) && snapshotRetention >= 1
      ensures Valid() && Trusted() && cache == map[] && order == [] && this.store == store
    {
      this.store, this.cacheEntries := store, cacheEntries;
      this.snapshotInterval, this.snapshotRetention := snapshotInterval, snapshotRetention;
      this.outboxRetention := outboxRetention;
      cache, order := map[], [];
    }

    ghost predicate StoreReady()
      reads this, store
    {
      StoreSound(store.View()) && SnapshotsSound(store.View()) && snapshotRetention >= 1
    }

    /** The keys of an ordered dictionary: each once, in order of recency. */
    ghost predicate Listed()
      reads this
    {
      Distinct(order) && forall t :: t in order <==> t in cache
    }

    ghost predicate Valid()
      reads this, store, cache.Values
    {
      && StoreReady() && Listed() && |order| <= cacheEntries
      && forall t :: t in cache ==> cache[t].twinId == t
    }

    /** The cached states, as values. */
    ghost function Held(): Cache
      reads this, cache.Values
    {
      map t | t in cache :: cache[t].View()
    }

    /** The ledger of a twin, as it is now. */
    ghost function Events(twin: Id): seq<Event>
      reads this, store
    {
      Ledger(store.View(), twin)
    }

    /** Each cached object holds the fold of some prefix of its twin's ledger. */
    ghost predicate Trusted()
      reads this, store, cache.Values
    {
      AllRight(store.View(), Held())
    }

    method PutRecent(state: TwinState)
      requires Listed()
      modifies this`cache, this`order
      ensures Listed()
      ensures cache == old(cache)[state.twinId := state] && order == MovedToEnd(old(order), state.twinId)
      ensures Held() == old(Held())[state.twinId := state.View()]
    {
      hide Without;
      WithoutRemoves(order, state.twinId);
      cache := cache[state.twinId := state];
      order := MovedToEnd(order, state.twinId);
    }

    /** Drop the least recently used entries beyond the limit; nothing else changes. */
    method EvictOldest()
      requires Listed()
      modifies this`cache, this`order
      ensures Listed() && order == Newest(old(order), cacheEntries)
      ensures Within(Held(), old(Held()))
      ensures forall t :: t in cache ==> t in old(cache) && cache[t] == old(cache)[t]
    {
      ghost var dropped := 0;
      while |order| > cacheEntries
        invariant dropped <= |old(order)| && order == old(order)[dropped..]
        invariant |old(order)| - dropped >= cacheEntries || dropped == 0
        invariant Listed()
        invariant forall t :: t in cache ==> t in old(cache) && cache[t] == old(cache)[t]
        decreases |order|
      {
        var oldest := order[0];
        DistinctTail(order);
        order := order[1..];
        cache := cache - {oldest};
        dropped := dropped + 1;
      }
    }

    /** A cache of no entries is empty. */
    lemma NothingCached()
      requires Listed() && |order| <= cacheEntries
      ensures cacheEntries == 0 ==> cache == map[]
    {
      if cacheEntries == 0 {
        assert forall t :: t in cache ==> t in order;
      }
    }

    lemma NothingHeld()
      ensures cache == map[] ==> Held() == map[]
    {}

    /** Put a state at the recent end and drop the least recently used ones beyond the limit. */
    method CacheState(state: TwinState)
      requires Listed() && |order| <= cacheEntries
      modifies this`cache, this`order
      ensures Listed()
      ensures cacheEntries == 0 ==> unchanged(this)
      ensures cacheEntries > 0 ==>
        && order == Newest(MovedToEnd(old(order), state.twinId), cacheEntries) && |order| <= cacheEntries
        && order != [] && order[|order| - 1] == state.twinId
        && state.twinId in cache && cache[state.twinId] == state
      ensures forall t :: t in cache && t != state.twinId ==> t in old(cache) && cache[t] == old(cache)[t]
      ensures Within(Held(), old(Held())[state.twinId := state.View()])
    {
      hide Without, Held;
      NothingCached();
      NothingHeld();
      if cacheEntries == 0 {
        return;
      }
      PutRecent(state);
      EvictOldest();
    }

    /** What a read leaves of the cache: its old entries, and possibly the twin's latest state. */
    twostate predicate CacheRefreshed(twin: Id, new latest: Result<TwinState>)
      reads this
    {
      forall t :: t in cache ==>
        || (t in old(cache) && cache[t] == old(cache)[t])
        || (t == twin && latest.Ok? && cache[t] == latest.value)
    }

    method Forget(twin: Id)
      requires Listed()
      modifies this`cache, this`order
      ensures Listed() && cache == old(cache) - {twin} && |order| <= |old(order)|
      ensures Held() == old(Held()) - {twin}
    {
      hide Without;
      WithoutRemoves(order, twin);
      cache := cache - {twin};
      order := Without(order, twin);
    }

    /** The cached state of a twin if its number and hash are the head's; a stale one is dropped. */
    method Lookup(twin: Id) returns (hit: TwinState?)
      requires Listed()
      modifies this`cache, this`order
      ensures Listed() && |order| <= |old(order)|
      ensures hit != null <==>
        twin in old(Held()) && StandsAtHead(old(Held())[twin], |Events(twin)|, HeadHash(Events(twin)))
      ensures hit != null ==>
        && twin in old(cache) && hit == old(cache)[twin] && cache == old(cache) && order[|order| - 1] == twin
        && hit.View() == old(Held())[twin] && Held() == old(Held())
      ensures hit == null ==> cache == old(cache) - {twin} && Held() == old(Held()) - {twin}
    {
      hide Without;
      hit := null;
      if twin in cache {
        var head := store.Head(twin);
        if cache[twin].seqNo == head.0 && cache[twin].lastHash == head.1 {
          hit := cache[twin];
          WithoutRemoves(order, twin);
          assert cache[twin := hit] == cache;
          order := MovedToEnd(order, twin);
          return;
        }
        Forget(twin);
      }
    }

    lemma RebuiltPosition(twin: Id, events: seq<Event>)
      requires FoldAll(twin, events).Ok?
      ensures FoldAll(twin, events).value.seqNo == |events| && FoldAll(twin, events).value.twinId == twin
      ensures FoldAll(twin, events[..|events|]) == FoldAll(twin, events)
    {
      FoldPosition(EmptyTwin(twin), events);
      assert events[..|events|] == events;
    }

    /** While memory is right, the latest state is the fold, and looking at it leaves memory right. */
    lemma LookingStaysTrusted(twin: Id)
      ensures Trusted() ==>
        && Latest(Held(), twin, Events(twin)) == FoldAll(twin, Events(twin))
        && AllRight(store.View(), Refreshed(Held(), twin, Events(twin)))
    {
      hide FoldAll, HoldsPrefix, Latest, Refreshed;
      if Trusted() {
        LatestIsFold(Held(), twin, Events(twin));
      }
    }

    /** What lies within a right memory is right. */
    lemma StaysTrusted(held: Cache)
      requires Within(Held(), held)
      ensures AllRight(store.View(), held) ==> Trusted()
    {
      hide HoldsPrefix;
    }

    /** The state at the head: from the cache if it is still there, otherwise rebuilt and cached. */
    method LatestState(twin: Id) returns (r: Result<TwinState>)
      requires Valid()
      modifies this`cache, this`order
      ensures Valid()
      ensures var goal := Latest(old(Held()), twin, Events(twin));
              if goal.Err? then r == Err(goal.error) else r.Ok? && r.value.View() == goal.value
      ensures r.Ok? ==> r.value.twinId == twin
      ensures r.Ok? ==> fresh(r.value) || (twin in old(cache) && r.value == old(cache)[twin])
      ensures CacheRefreshed(twin, r)
      ensures Within(Held(), Refreshed(old(Held()), twin, Events(twin)))
      ensures old(Trusted()) ==> Trusted() && Latest(old(Held()), twin, Events(twin)) == FoldAll(twin, Events(twin))
      ensures r.Ok? && cacheEntries > 0 ==> twin in cache && cache[twin] == r.value && order[|order| - 1] == twin
    {
      hide FoldAll, Apply, StoreSound, SnapshotsSound, Without, Listed, Newest, HeadHash, Held, StandsAtHead, AllRight;
      ghost var events := Events(twin);
      assert events[..|events|] == events;
      LookingStaysTrusted(twin);
      var hit := Lookup(twin);
      if hit != null {
        r := Ok(hit);
      } else {
        r := RebuildState(store, twin, true, None, None);
        SnapshotReplayIsFullReplay(store.View(), twin, true, None);
        if r.Ok? {
          RebuiltPosition(twin, events);
          CacheState(r.value);
        }
      }
      StaysTrusted(Refreshed(old(Held()), twin, Events(twin)));
    }

    lemma StateIsFold(twin: Id, upTo: Option<int>, asOf: Option<int>)
      requires StoreReady()
      ensures var events := Ledger(store.View(), twin);
              var known := KnownPrefix(events[..Bounded(events, upTo)], asOf);
              && Rebuild(store.View(), twin, true, upTo, asOf) == FoldAll(twin, known)
              && (upTo.None? && asOf.None? ==> known == events)
    {
      hide FoldAll, StoreSound, SnapshotsSound, Rebuild;
      var events := Ledger(store.View(), twin);
      assert events[..|events|] == events;
      if asOf.Some? {
        RecordedTimeReplay(store.View(), twin, true, upTo, asOf.value);
      } else {
        SnapshotReplayIsFullReplay(store.View(), twin, true, upTo);
      }
    }

    /** A deep copy of the latest state. */
    method LatestCopy(twin: Id) returns (r: Result<TwinState>)
      requires Valid()
      modifies this`cache, this`order
      ensures Valid() && (old(Trusted()) ==> Trusted())
      ensures var goal := Latest(old(Held()), twin, Events(twin));
              if goal.Err? then r == Err(goal.error) else r.Ok? && fresh(r.value) && r.value.View() == goal.value
      ensures r.Ok? ==> r.value !in cache.Values
    {
      hide FoldAll, StoreSound, SnapshotsSound, Latest, Refreshed, AllRight, Within;
      var latest := LatestState(twin);
      if latest.Err? {
        return latest;
      }
      var copy := new TwinState(latest.value.View());
      r := Ok(copy);
    }

    /** What a caller is to get: the latest state as the process sees it, or a replay within bound and recorded time. */
    ghost function Asked(held: Cache, twin: Id, upTo: Option<int>, asOf: Option<int>): Result<Twin>
      reads this, store
    {
      if upTo.None? && asOf.None? then Latest(held, twin, Events(twin))
      else FoldAll(twin, KnownPrefix(Events(twin)[..Bounded(Events(twin), upTo)], asOf))
    }

    /** While memory is right, that is the replay in every case. */
    lemma AskedIsFold(twin: Id, upTo: Option<int>, asOf: Option<int>)
      requires StoreReady() && Trusted()
      ensures Asked(Held(), twin, upTo, asOf) == FoldAll(twin, KnownPrefix(Events(twin)[..Bounded(Events(twin), upTo)], asOf))
    {
      hide FoldAll, StoreSound, SnapshotsSound, KnownPrefix, Latest, Refreshed, AllRight, Rebuild;
      StateIsFold(twin, upTo, asOf);
      LookingStaysTrusted(twin);
    }

    /**
      The state handed to callers: a deep copy of the latest one, or a rebuild within a bound or as of a
      recorded time, then restricted to a valid time if one is given. No caller holds a cached object.
     */
    method State(twin: Id, upTo: Option<int>, asOf: Option<int>, validAt: Option<int>) returns (r: Result<TwinState>)
      requires Valid()
      modifies this`cache, this`order
      ensures Valid() && (old(Trusted()) ==> Trusted())
      ensures var goal := Asked(old(Held()), twin, upTo, asOf);
              if goal.Err? then r == Err(goal.error)
              else r.Ok? && r.value.View() == if validAt.None? then goal.value
                                              else goal.value.(facts := SelectValid(goal.value.facts, validAt.value))
      ensures r.Ok? ==> fresh(r.value) && r.value !in cache.Values
    {
      hide FoldAll, StoreSound, SnapshotsSound, SelectValid, Rebuild, KnownPrefix, Latest, AllRight;
      StateIsFold(twin, upTo, asOf);
      if upTo.None? && asOf.None? {
        r := LatestCopy(twin);
      } else {
        r := RebuildState(store, twin, true, upTo, asOf);
      }
      if r.Ok? && validAt.Some? {
        var selected := r.value.SelectValidAt(validAt.value);
        return Ok(selected);
      }
    }

    lemma AppendKeepsSnapshots(db: Db, req: Request, expected: int, now: int)
      ensures AppendTo(db, req, expected, now).0.snapshots == db.snapshots
    {}

    lemma RightStaysRight(twin: Id, events: seq<Event>, more: seq<Event>, held: Cache)
      requires events <= more
      ensures RightFor(twin, events, held) ==> RightFor(twin, more, held)
    {
      hide HoldsPrefix;
      if RightFor(twin, events, held) && twin in held {
        PrefixStaysHeld(twin, events, more, held[twin]);
      }
    }

    /** The store's append, by this process or by another one: what memory holds stays right, if behind. */
    method StoreAppend(req: Request, expected: int, now: int) returns (r: Result<Event>)
      requires Valid()
      modifies store
      ensures Valid() && (store.View(), r) == AppendTo(old(store.View()), req, expected, now)
      ensures old(Trusted()) ==> Trusted()
    {
      hide FoldAll, StoreSound, SnapshotsSound, AppendTo, Listed, RightFor;
      ghost var db := store.View();
      r := store.Append(req, expected, now);
      AppendKeepsSound(db, req, expected, now);
      forall t
        ensures Ledger(db, t) <= Ledger(store.View(), t)
        ensures RightFor(t, Ledger(db, t), Held()) ==> RightFor(t, Ledger(store.View(), t), Held())
      {
        AppendOnlyExtends(db, req, expected, now, t);
        RightStaysRight(t, Ledger(db, t), Ledger(store.View(), t), Held());
      }
      AppendKeepsSnapshots(db, req, expected, now);
      SnapshotsSurviveGrowth(db, store.View());
    }

    /** Check that a state stands at the head that was read, and try the transition on a deep copy of it. */
    method Preview(current: TwinState, req: Request, head: nat, hash: Hash, previewAt: int) returns (error: Option<Error>)
      ensures Try(head, hash, Ok(current.View()), req, previewAt)
           == if error.Some? then Refused(error.value) else Previewed(current.View())
    {
      hide Apply;
      if current.seqNo != head || current.lastHash != hash {
        return Some(ConcurrencyConflict);
      }
      var preview := Seal(req, head + 1, previewAt, hash);
      var copy := new TwinState(current.View());
      error := copy.ApplyEvent(preview);
    }

    /** Look at the state at the head as it is by now, and preview the transition on it. */
    method TryTransition(req: Request, head: nat, hash: Hash, previewAt: int) returns (r: Result<TwinState>)
      requires Valid()
      modifies this`cache, this`order
      ensures Valid()
      ensures match Try(head, hash, Latest(old(Held()), req.twin, Events(req.twin)), req, previewAt)
              case Previewed(s) => r.Ok? && r.value.View() == s && r.value.twinId == req.twin
              case Refused(x) => r == Err(x)
              case Unpreviewed => false
      ensures r.Ok? ==> fresh(r.value) || (req.twin in old(cache) && r.value == old(cache)[req.twin])
      ensures forall t :: t in cache ==> (t in old(cache) && cache[t] == old(cache)[t]) || (t == req.twin && fresh(cache[t]))
      ensures Within(Held(), Refreshed(old(Held()), req.twin, Events(req.twin)))
    {
      hide FoldAll, Apply, StoreSound, SnapshotsSound, Listed, Latest, Refreshed, Within, StandsAtHead;
      r := LatestState(req.twin);
      if r.Ok? {
        var error := Preview(r.value, req, head, hash, previewAt);
        if error.Some? {
          return Err(error.value);
        }
      }
    }

    /** The checks before a write, against a head that was read before; others may have written since. */
    method Admit(req: Request, given: nat, expected: int, head: nat, hash: Hash, previewAt: int) returns (r: Result<TwinState?>)
      requires Valid()
      modifies this`cache, this`order
      ensures Valid()
      ensures match Judge(head, hash, Latest(old(Held()), req.twin, Events(req.twin)), req, given, expected, previewAt)
              case Refused(x) => r == Err(x)
              case Unpreviewed => r == Ok(null)
              case Previewed(s) => r.Ok? && r.value != null && r.value.View() == s && r.value.twinId == req.twin
      ensures r.Ok? && r.value != null ==> fresh(r.value) || (req.twin in old(cache) && r.value == old(cache)[req.twin])
      ensures forall t :: t in cache ==> (t in old(cache) && cache[t] == old(cache)[t]) || (t == req.twin && fresh(cache[t]))
      ensures Within(Held(), Looked(old(Held()), Events(req.twin), head, req, given, expected))
    {
      hide FoldAll, StoreSound, SnapshotsSound, Listed, ValidEvent, Latest, Refreshed, Try;
      if !ValidEvent(Envelope(req, given)) || req.plane.Simulation? {
        return Err(InvariantViolation);
      }
      if head != expected {
        return Ok(null);
      }
      var tried := TryTransition(req, head, hash, previewAt);
      r := if tried.Err? then Err(tried.error) else Ok(tried.value);
    }

    lemma AppliedTwin(s: Twin, e: Event)
      ensures Apply(s, e).state.twinId == s.twinId
    {}

    /** Bring the state object up to the persisted event, in place, and keep it cached; if that fails, forget the twin. */
    method Advance(current: TwinState, e: Event) returns (error: Option<Error>)
      requires Valid() && current.twinId == e.req.twin
      modifies this`cache, this`order, current
      ensures Valid()
      ensures Applied(current.View(), error) == Apply(old(current.View()), e)
      ensures error.Some? ==> e.req.twin !in cache
      ensures error.None? && cacheEntries > 0 ==> e.req.twin in cache && cache[e.req.twin] == current
      ensures Within(Held(), if error.None? then old(Held())[e.req.twin := current.View()] else old(Held()) - {e.req.twin})
      ensures forall t :: t in cache ==>
        (t != e.req.twin && t in old(cache) && cache[t] == old(cache)[t]) || (t == e.req.twin && cache[t] == current)
    {
      hide FoldAll, Apply, StoreSound, SnapshotsSound, Newest, Without;
      AppliedTwin(current.View(), e);
      ghost var before := Held();
      error := current.ApplyEvent(e);
      assert Held() - {e.req.twin} == before - {e.req.twin};
      hide Held, Listed;
      if error.Some? {
        Forget(e.req.twin);
        return;
      }
      CacheState(current);
    }

    lemma FewerOutboxRowsSound(db: Db, after: Db)
      requires StoreSound(db) && after.ledgers == db.ledgers && after.lineage == db.lineage
      requires after.outbox.Keys <= db.outbox.Keys
      ensures StoreSound(after)
    {
      hide Faithful, LedgerSound;
      assert forall t :: Ledger(after, t) == Ledger(db, t) && IndexOf(after, t) == IndexOf(db, t);
    }

    lemma OtherTablesSound(db: Db, after: Db)
      requires StoreSound(db) && after == db.(snapshots := after.snapshots)
      ensures StoreSound(after)
    {
      FewerOutboxRowsSound(db, after);
    }

    lemma SavingKeepsTables(db: Db, x: Snapshot)
      ensures SaveSnapshot(db, x).0 == db.(snapshots := SaveSnapshot(db, x).0.snapshots)
    {}

    lemma PruningKeepsTables(db: Db, twin: Id, keep: nat)
      ensures PruneSnapshots(db, twin, keep) == db.(snapshots := PruneSnapshots(db, twin, keep).snapshots)
    {}

    /** Save a snapshot of the full replay, and prune old snapshots. */
    method SaveSnapshotOf(twin: Id, now: int)
      requires StoreReady() && Ledger(store.View(), twin) != [] && FoldAll(twin, Ledger(store.View(), twin)).Ok?
      modifies store`snapshots
      ensures StoreReady()
    {
      hide FoldAll, Apply, SnapshotsSound, PruneSnapshots, SaveSnapshot, StoreSound, ToSnapshot;
      ghost var db := store.View();
      var state := RebuildState(store, twin, false, None, None);
      SnapshotReplayIsFullReplay(db, twin, false, None);
      RebuiltPosition(twin, Ledger(db, twin));
      var x := ToSnapshot(state.value.View(), now);
      SavingAReplayKeepsSound(db, twin, now);
      SavingKeepsTables(db, x);
      var saved := store.Save(x);
      PruningKeepsSound(store.View(), twin, snapshotRetention);
      PruningKeepsTables(store.View(), twin, snapshotRetention);
      var pruned := store.Prune(twin, snapshotRetention);
      OtherTablesSound(db, store.View());
    }

    lemma OutboxPruningKeepsReady(db: Db, after: Db)
      requires StoreSound(db) && SnapshotsSound(db)
      requires after == db.(outbox := after.outbox) && after.outbox.Keys <= db.outbox.Keys
      ensures StoreSound(after) && SnapshotsSound(after)
    {
      hide StoreSound, SnapshotsSound;
      FewerOutboxRowsSound(db, after);
      SnapshotsSurviveGrowth(db, after);
    }

    method TakeSnapshot(twin: Id, now: int)
      requires StoreReady() && Ledger(store.View(), twin) != [] && FoldAll(twin, Ledger(store.View(), twin)).Ok?
      modifies store
      ensures StoreReady() && store.ledgers == old(store.ledgers) && store.lineage == old(store.lineage)
      ensures IsPruned(old(store.outbox), now - outboxRetention, store.outbox)
    {
      hide FoldAll, Apply, SnapshotsSound, StoreSound, IsPruned, IsOldestPrunable;
      SaveSnapshotOf(twin, now);
      ghost var db := store.View();
      var gone := store.PruneOutbox(now - outboxRetention, 1000);
      OutboxPruningKeepsReady(db, store.View());
    }

    lemma NothingPruned(before: int)
      ensures forall t: Table :: IsPruned(t, before, t)
    {}

    /** Every so many events the twin is replayed in full and saved; a ledger that does not replay raises. */
    method SnapshotIfDue(e: Event, now: int) returns (error: Option<Error>)
      requires StoreReady() && Ledger(store.View(), e.req.twin) != []
      modifies store
      ensures StoreReady() && store.ledgers == old(store.ledgers) && store.lineage == old(store.lineage)
      ensures IsPruned(old(store.outbox), now - outboxRetention, store.outbox)
      ensures error.Some? ==> FoldAll(e.req.twin, Ledger(store.View(), e.req.twin)) == Err(error.value)
    {
      hide FoldAll, StoreSound, SnapshotsSound, IsPruned;
      NothingPruned(now - outboxRetention);
      if snapshotInterval == 0 || e.seqNo % snapshotInterval != 0 {
        return None;
      }
      ghost var events := Ledger(store.View(), e.req.twin);
      var state := RebuildState(store, e.req.twin, false, None, None);
      SnapshotReplayIsFullReplay(store.View(), e.req.twin, false, None);
      assert events[..|events|] == events;
      if state.Err? {
        return Some(state.error);
      }
      TakeSnapshot(e.req.twin, now);
      return None;
    }

    /** Bring memory along with an answer beyond the head that was read. */
    method BringAlong(current: TwinState?, e: Event, ghost head: nat) returns (error: Option<Error>)
      requires Valid() && (current != null ==> current.twinId == e.req.twin) && e.seqNo > head
      modifies this`cache, this`order, current
      ensures Valid()
      ensures var was := if current == null then None else Some(old(current.View()));
              && Within(Held(), Kept(old(Held()), e.req.twin, head, was, Ok(e)))
              && error == if was.None? then None else Apply(was.value, e).error
      ensures forall t :: t in cache ==>
        (t in old(cache) && cache[t] == old(cache)[t]) || (t == e.req.twin && cache[t] == current)
    {
      hide Apply, StoreSound, SnapshotsSound, Held, Listed;
      if current == null {
        Forget(e.req.twin);
        return None;
      }
      error := Advance(current, e);
    }

    lemma WithinItself()
      ensures Within(Held(), Held())
    {}

    /** The ledgers and the index are as an append left them, and old outbox rows may have been pruned. */
    ghost predicate Stored(after: Db, db: Db, before: int) {
      after.ledgers == db.ledgers && after.lineage == db.lineage && IsPruned(db.outbox, before, after.outbox)
    }

    /**
      The second step: persist, and bring memory along. Other processes may have written since the head
      was read: `current` is the state that was admitted at that head, or null if the head was not the
      expected one, and then a commit drops the twin from memory.
     */
    method Persist(req: Request, expected: int, head: nat, current: TwinState?, now: int) returns (r: Result<Event>)
      requires Valid() && (current != null ==> current.twinId == req.twin)
      modifies this`cache, this`order, store, current
      ensures Valid()
      ensures var (db, answer) := AppendTo(old(store.View()), req, expected, now);
              var was := if current == null then None else Some(old(current.View()));
              && Stored(store.View(), db, now - outboxRetention)
              && Within(Held(), Kept(old(Held()), req.twin, head, was, answer))
              && (r != answer ==>
                    && answer.Ok? && answer.value.seqNo > head && r.Err?
                    && (|| FoldAll(req.twin, Events(req.twin)) == Err(r.error)
                        || (was.Some? && Apply(was.value, answer.value).error == Some(r.error))))
      ensures forall t :: t in cache ==>
        (t in old(cache) && cache[t] == old(cache)[t]) || (t == req.twin && cache[t] == current)
    {
      hide FoldAll, Apply, StoreSound, SnapshotsSound, Listed, AppendTo, IsPruned, Within, Held;
      ghost var db := store.View();
      AnswerBeyond(db, req, expected, now);
      NothingPruned(now - outboxRetention);
      r := StoreAppend(req, expected, now);
      if r.Err? || r.value.seqNo <= head {
        WithinItself();
        return;
      }
      var error := BringAlong(current, r.value, head);
      if error.None? {
        error := SnapshotIfDue(r.value, now);
      }
      if error.Some? {
        return Err(error.value);
      }
    }

    /** An append of a process whose memory is right leaves it right. */
    lemma AppendStaysTrusted(db: Db, held: Cache, req: Request, given: nat, expected: int, previewAt: int, now: int)
      requires StoreSound(db) && AllRight(db, held)
      requires store.ledgers == ProcessAppend(db, held, req, given, expected, previewAt, now).0.ledgers
      requires Within(Held(), HeldAfter(db, held, req, given, expected, previewAt, now))
      ensures var (after, answer) := ProcessAppend(db, held, req, given, expected, previewAt, now);
              && (after, answer) == ServiceAppend(db, req, given, expected, previewAt, now) && Trusted()
              && (answer.Ok? && answer.value.seqNo > |Ledger(db, req.twin)| ==> FoldAll(req.twin, Events(req.twin)).Ok?)
    {
      hide StoreSound, FoldAll, HoldsPrefix, HeldAfter, ProcessAppend, ServiceAppend, Within;
      var after, all := ProcessAppend(db, held, req, given, expected, previewAt, now).0,
                        HeldAfter(db, held, req, given, expected, previewAt, now);
      SoleAppendStaysRight(db, held, req, given, expected, previewAt, now);
      forall t
        ensures RightFor(t, Ledger(store.View(), t), all)
      {
        assert Ledger(store.View(), t) == Ledger(after, t);
        if t != req.twin {
          OtherTwinsStay(db, held, req, given, expected, previewAt, now, t);
          assert RightFor(t, Ledger(db, t), held);
        }
      }
      StaysTrusted(all);
    }

    /** Append an event: read the head, check and preview, persist, update the cached state, snapshot now and then. */
    method Append(req: Request, given: nat, expected: int, previewAt: int, now: int) returns (r: Result<Event>)
      requires Valid()
      modifies this`cache, this`order, store, cache.Values
      ensures Valid()
      ensures var (db, answer) := ProcessAppend(old(store.View()), old(Held()), req, given, expected, previewAt, now);
              && Stored(store.View(), db, now - outboxRetention)
              && (r != answer ==>
                    answer.Ok? && answer.value.seqNo > |old(Events(req.twin))| && FoldAll(req.twin, Events(req.twin)).Err?)
      ensures Within(Held(), HeldAfter(old(store.View()), old(Held()), req, given, expected, previewAt, now))
      ensures old(Trusted()) ==>
        var (db, answer) := ServiceAppend(old(store.View()), req, given, expected, previewAt, now);
        Trusted() && r == answer && store.ledgers == db.ledgers
      ensures forall t :: t in cache ==> fresh(cache[t]) || (t in old(cache) && cache[t] == old(cache)[t])
    {
      hide FoldAll, Apply, StoreSound, SnapshotsSound, Listed, AppendTo, ValidEvent, IsPruned, Latest, Refreshed, Looked, Judge,
           Kept, Try, Within, AllRight, ServiceAppend;
      ghost var db, held := store.View(), Held();
      NothingPruned(now - outboxRetention);
      var head := store.Head(req.twin);
      var admitted := Admit(req, given, expected, head.0, head.1, previewAt);
      if admitted.Err? {
        r := Err(admitted.error);
      } else {
        ghost var looked, current := Held(), if admitted.value == null then None else Some(admitted.value.View());
        AdmittedAcceptsAnswer(db, head.0, head.1, Latest(held, req.twin, Ledger(db, req.twin)), req, given, expected, previewAt, now);
        r := Persist(req, expected, head.0, admitted.value, now);
        KeptWithin(looked, Looked(held, Ledger(db, req.twin), head.0, req, given, expected), Held(), req.twin, head.0, current,
                   AppendTo(db, req, expected, now).1);
      }
      if old(Trusted()) {
        AppendStaysTrusted(db, held, req, given, expected, previewAt, now);
      }
    }
  }
}
