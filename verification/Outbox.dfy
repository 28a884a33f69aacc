/**
  The transactional outbox: one row per event, leased to relays and fenced by owner and attempt.
  A relay may die, stall beyond its lease, or run beside others; clocks may disagree.
 */
module Outbox {
  import opened Types

  datatype RowKey = RowKey(twin: Id, seqNo: nat)

  datatype Row = Row(createdAt: int, publishedAt: Option<int>, attempts: nat, lastError: Option<Error>,
                     owner: Option<Id>, leaseUntil: Option<int>)

  type Table = map<RowKey, Row>

  /** What a claim hands to a relay: the fence it must show to mark or release the row. */
  datatype Ticket = Ticket(key: RowKey, owner: Id, attempts: nat)

  function NewRow(createdAt: int): Row {
    Row(createdAt, None, 0, None, None, None)
  }

  predicate Claimable(r: Row, now: int) {
    r.publishedAt.None? && (r.leaseUntil.None? || r.leaseUntil.value <= now)
  }

  /** The rows are taken oldest first, then by twin and sequence. */
  predicate Before(t: Table, a: RowKey, b: RowKey)
    requires a in t && b in t
  {
    || t[a].createdAt < t[b].createdAt
    || (t[a].createdAt == t[b].createdAt && (a.twin < b.twin || (a.twin == b.twin && a.seqNo < b.seqNo)))
  }

  function Eligible(t: Table, now: int): set<RowKey> {
    set k | k in t && Claimable(t[k], now)
  }

  ghost predicate IsFirst(t: Table, k: RowKey, ks: set<RowKey>)
    requires ks <= t.Keys
  {
    k in ks && forall x :: x in ks && x != k ==> Before(t, k, x)
  }

  lemma {:induction false} HasFirst(t: Table, ks: set<RowKey>)
    requires ks <= t.Keys && ks != {}
    ensures exists k :: IsFirst(t, k, ks)
  {
    var k :| k in ks;
    if ks == {k} {
      assert IsFirst(t, k, ks);
    } else {
      HasFirst(t, ks - {k});
      var m :| IsFirst(t, m, ks - {k});
      var first := if Before(t, k, m) then k else m;
      forall x | x in ks && x != first
        ensures Before(t, first, x)
      {
        assert x == k || x in ks - {k};
      }
      assert IsFirst(t, first, ks);
    }
  }

  /** The rows a claim selects: the first `limit` of the eligible ones, in order. */
  predicate IsSelection(t: Table, now: int, limit: int, selected: seq<RowKey>) {
    && (forall i :: 0 <= i < |selected| ==> selected[i] in Eligible(t, now))
    && (forall i, j :: 0 <= i < j < |selected| ==> Before(t, selected[i], selected[j]))
    && |selected| <= limit
    && (forall k :: k in Eligible(t, now) && k !in selected ==>
          |selected| == limit && forall x :: x in selected ==> Before(t, x, k))
  }

  method Select(t: Table, now: int, limit: int) returns (selected: seq<RowKey>)
    requires limit > 0
    ensures IsSelection(t, now, limit, selected)
  {
    selected := [];
    var rest := Eligible(t, now);
    while rest != {} && |selected| < limit
      invariant rest == Eligible(t, now) - (set k | k in selected)
      invariant forall i :: 0 <= i < |selected| ==> selected[i] in Eligible(t, now)
      invariant forall i, j :: 0 <= i < j < |selected| ==> Before(t, selected[i], selected[j])
      invariant forall k, x :: k in selected && x in rest ==> Before(t, k, x)
      invariant |selected| <= limit
      decreases rest
    {
      HasFirst(t, rest);
      var k :| k in rest && forall x :: x in rest && x != k ==> Before(t, k, x);
      selected := selected + [k];
      rest := rest - {k};
    }
    forall k | k in Eligible(t, now) && k !in selected
      ensures k in rest
    {
      assert k !in set x | x in selected;
    }
  }

  function Leased(r: Row, owner: Id, until: int): Row {
    r.(owner := Some(owner), leaseUntil := Some(until), attempts := r.attempts + 1)
  }

  function ClaimRows(t: Table, selected: seq<RowKey>, owner: Id, until: int): Table {
    map k | k in t :: if k in selected then Leased(t[k], owner, until) else t[k]
  }

  function TicketsFor(t: Table, selected: seq<RowKey>, owner: Id): seq<Ticket>
    requires forall k :: k in selected ==> k in t
  {
    seq(|selected|, i requires 0 <= i < |selected| => Ticket(selected[i], owner, t[selected[i]].attempts + 1))
  }

  /** One claim transaction: the guarded UPDATE of each selected row hits, and none is skipped. */
  method ClaimOldest(t: Table, owner: Id, limit: int, now: int, until: int)
    returns (after: Table, tickets: seq<Ticket>, selected: seq<RowKey>)
    requires limit > 0
    ensures IsSelection(t, now, limit, selected)
    ensures after == ClaimRows(t, selected, owner, until)
    ensures tickets == TicketsFor(t, selected, owner)
  {
    selected := Select(t, now, limit);
    after, tickets := t, [];
    for i := 0 to |selected|
      invariant after == ClaimRows(t, selected[..i], owner, until)
      invariant tickets == TicketsFor(t, selected, owner)[..i]
    {
      assert selected[i] in Eligible(t, now) && selected[i] !in selected[..i];
      if Claimable(after[selected[i]], now) {
        after := after[selected[i] := Leased(after[selected[i]], owner, until)];
        tickets := tickets + [Ticket(selected[i], owner, after[selected[i]].attempts)];
      }
      assert selected[..i + 1] == selected[..i] + [selected[i]];
      assert after.Keys == t.Keys;
      assert forall k :: k in t ==> after[k] == ClaimRows(t, selected[..i + 1], owner, until)[k];
    }
    assert selected[..|selected|] == selected;
  }

  /** The guard of the UPDATE that marks or releases: the row is pending and the fence matches. */
  predicate Holds(t: Table, k: Ticket) {
    k.key in t && t[k.key].publishedAt.None? && t[k.key].owner == Some(k.owner) && t[k.key].attempts == k.attempts
  }

  function MarkPublished(t: Table, k: Ticket, now: int): Table {
    if Holds(t, k)
    then t[k.key := t[k.key].(publishedAt := Some(now), owner := None, leaseUntil := None, lastError := None)]
    else t
  }

  function Release(t: Table, k: Ticket, error: Error): Table {
    if Holds(t, k) then t[k.key := t[k.key].(owner := None, leaseUntil := None, lastError := Some(error))] else t
  }

  /** Pruning may delete any rows that were published before the given time. */
  predicate IsPruned(t: Table, before: int, after: Table) {
    && after.Keys <= t.Keys && (forall k :: k in after ==> after[k] == t[k])
    && forall k :: k in t && k !in after ==> t[k].publishedAt.Some? && t[k].publishedAt.value < before
  }

  /** The published rows that a pruning considers. */
  function Prunable(t: Table, before: int): set<RowKey> {
    set k | k in t && t[k].publishedAt.Some? && t[k].publishedAt.value < before
  }

  /** No row of the set was published earlier. */
  ghost predicate IsOldest(t: Table, k: RowKey, ks: set<RowKey>)
    requires forall x :: x in ks ==> x in t && t[x].publishedAt.Some?
  {
    k in ks && forall x :: x in ks ==> t[k].publishedAt.value <= t[x].publishedAt.value
  }

  lemma {:induction false} HasOldest(t: Table, ks: set<RowKey>)
    requires (forall x :: x in ks ==> x in t && t[x].publishedAt.Some?) && ks != {}
    ensures exists k :: IsOldest(t, k, ks)
  {
    var k :| k in ks;
    if ks == {k} {
      assert IsOldest(t, k, ks);
    } else {
      HasOldest(t, ks - {k});
      var m :| IsOldest(t, m, ks - {k});
      assert IsOldest(t, if t[k].publishedAt.value <= t[m].publishedAt.value then k else m, ks);
    }
  }

  /** The rows that one pruning deletes: the oldest prunable ones, as many as the limit allows. */
  predicate IsOldestPrunable(t: Table, before: int, limit: int, rows: set<RowKey>) {
    && rows <= Prunable(t, before)
    && (forall d, k :: d in rows && k in Prunable(t, before) && k !in rows ==>
          t[d].publishedAt.value <= t[k].publishedAt.value)
    && (rows == Prunable(t, before) || |rows| == if limit < 0 then 0 else limit)
    && |rows| <= if limit < 0 then 0 else limit
  }

  method OldestPrunable(t: Table, before: int, limit: int) returns (rows: set<RowKey>)
    ensures IsOldestPrunable(t, before, limit, rows)
  {
    rows := {};
    var rest := Prunable(t, before);
    while rest != {} && |rows| < limit
      invariant rows + rest == Prunable(t, before) && rows !! rest
      invariant forall d, k :: d in rows && k in rest ==> t[d].publishedAt.value <= t[k].publishedAt.value
      invariant |rows| <= if limit < 0 then 0 else limit
      decreases rest
    {
      HasOldest(t, rest);
      var k :| k in rest && forall x :: x in rest ==> t[k].publishedAt.value <= t[x].publishedAt.value;
      rows, rest := rows + {k}, rest - {k};
    }
  }

  // ---------------------------------------------------------------- runs

  datatype Step =
    | Commit(key: RowKey, createdAt: int)
    | ClaimStep(owner: Id, limit: int, now: int, until: int, selected: seq<RowKey>)
    | MarkStep(ticket: Ticket, now: int)
    | ReleaseStep(ticket: Ticket, error: Error)
    | PruneStep(before: int, after: Table)

  /**
    The table with its history: the keys of all committed events, every ticket ever handed out, and
    the key of every successful mark, in order.
   */
  datatype World = World(table: Table, committed: set<RowKey>, handed: seq<Ticket>, published: seq<RowKey>)

  const START := World(map[], {}, [], [])

  /** A commit never reuses a key: a twin's sequence numbers only grow. */
  predicate Enabled(w: World, s: Step) {
    match s
    case Commit(key, _) => key !in w.committed
    case ClaimStep(_, limit, now, _, selected) => limit > 0 && IsSelection(w.table, now, limit, selected)
    case PruneStep(before, after) => IsPruned(w.table, before, after)
    case _ => true
  }

  function Take(w: World, s: Step): World
    requires Enabled(w, s)
  {
    match s
    case Commit(key, at) => w.(table := w.table[key := NewRow(at)], committed := w.committed + {key})
    case ClaimStep(owner, _, _, until, selected) =>
      w.(table := ClaimRows(w.table, selected, owner, until), handed := w.handed + TicketsFor(w.table, selected, owner))
    case MarkStep(k, now) =>
      World(MarkPublished(w.table, k, now), w.committed, w.handed,
            if Holds(w.table, k) then w.published + [k.key] else w.published)
    case ReleaseStep(k, error) => w.(table := Release(w.table, k, error))
    case PruneStep(_, after) => w.(table := after)
  }

  /** A run is any sequence of enabled steps, by any number of relays. */
  ghost predicate IsRun(ws: seq<World>, steps: seq<Step>) {
    && |ws| == |steps| + 1 && ws[0] == START
    && forall i :: 0 <= i < |steps| ==> Enabled(ws[i], steps[i]) && ws[i + 1] == Take(ws[i], steps[i])
  }

  predicate DistinctTickets(handed: seq<Ticket>) {
    forall i, j :: 0 <= i < j < |handed| && handed[i].key == handed[j].key ==> handed[i].attempts < handed[j].attempts
  }

  predicate DistinctKeys(keys: seq<RowKey>) {
    forall i, j :: 0 <= i < j < |keys| ==> keys[i] != keys[j]
  }

  ghost predicate Inv(w: World) {
    // a committed event is pending, or it was published
    && w.table.Keys <= w.committed
    && (forall k :: k in w.committed ==>
          (k !in w.published <==> k in w.table && w.table[k].publishedAt.None?))
    && (forall k :: k in w.published ==> k in w.committed)
    && DistinctKeys(w.published)
    // the row carries the latest attempt that was handed out
    && (forall t :: t in w.handed ==> t.key in w.committed && t.attempts >= 1)
    && (forall t :: t in w.handed && t.key in w.table ==> t.attempts <= w.table[t.key].attempts)
    && DistinctTickets(w.handed)
    && (forall k :: k in w.table && w.table[k].owner.Some? ==>
          Ticket(k, w.table[k].owner.value, w.table[k].attempts) in w.handed)
    && (forall k :: k in w.table && w.table[k].publishedAt.None? && w.table[k].attempts >= 1 ==>
          exists o :: Ticket(k, o, w.table[k].attempts) in w.handed)
  }

  lemma TicketIn(t: Table, selected: seq<RowKey>, owner: Id, i: nat)
    requires forall k :: k in selected ==> k in t
    requires i < |selected|
    ensures Ticket(selected[i], owner, t[selected[i]].attempts + 1) in TicketsFor(t, selected, owner)
  {
    assert TicketsFor(t, selected, owner)[i] == Ticket(selected[i], owner, t[selected[i]].attempts + 1);
  }

  /** The tickets of a claim are the next attempts of distinct rows. */
  lemma ClaimHandsOutNextAttempts(w: World, s: Step)
    requires Inv(w) && s.ClaimStep? && Enabled(w, s)
    ensures DistinctTickets(Take(w, s).handed)
  {
    var handed, tickets := Take(w, s).handed, TicketsFor(w.table, s.selected, s.owner);
    forall i, j | 0 <= i < j < |handed| && handed[i].key == handed[j].key
      ensures handed[i].attempts < handed[j].attempts
    {
      if j >= |w.handed| {
        assert handed[j] == tickets[j - |w.handed|] && handed[j].key == s.selected[j - |w.handed|];
        if i < |w.handed| {
          assert w.handed[i] in w.handed;
        }
      }
    }
  }

  lemma ClaimRaisesAttempts(w: World, s: Step)
    requires Inv(w) && s.ClaimStep? && Enabled(w, s)
    ensures var v := Take(w, s); forall t :: t in v.handed ==>
              t.key in v.committed && t.attempts >= 1 && (t.key in v.table ==> t.attempts <= v.table[t.key].attempts)
  {
    var v, tickets := Take(w, s), TicketsFor(w.table, s.selected, s.owner);
    forall t | t in v.handed
      ensures t.key in v.committed && t.attempts >= 1
      ensures t.key in v.table ==> t.attempts <= v.table[t.key].attempts
    {
      if t in tickets {
        var i :| 0 <= i < |tickets| && tickets[i] == t;
        assert s.selected[i] in Eligible(w.table, s.now);
      }
    }
  }

  lemma ClaimIssuesTickets(w: World, s: Step, k: RowKey)
    requires Inv(w) && s.ClaimStep? && Enabled(w, s) && k in w.table
    ensures var v := Take(w, s);
            && k in v.table && v.table[k].publishedAt == w.table[k].publishedAt
            && if k in s.selected
               then v.table[k].owner == Some(s.owner) && Ticket(k, s.owner, v.table[k].attempts) in v.handed
               else v.table[k] == w.table[k]
  {
    if k in s.selected {
      var i :| 0 <= i < |s.selected| && s.selected[i] == k;
      TicketIn(w.table, s.selected, s.owner, i);
    }
  }

  lemma ClaimKeepsInv(w: World, s: Step)
    requires Inv(w) && s.ClaimStep? && Enabled(w, s)
    ensures Inv(Take(w, s))
  {
    ClaimHandsOutNextAttempts(w, s);
    ClaimRaisesAttempts(w, s);
    forall k | k in w.table {
      ClaimIssuesTickets(w, s, k);
    }
  }

  lemma StepKeepsInv(w: World, s: Step)
    requires Inv(w) && Enabled(w, s)
    ensures Inv(Take(w, s))
  {
    match s
    case ClaimStep(_, _, _, _, _) => ClaimKeepsInv(w, s);
    case Commit(_, _) =>
    case MarkStep(k, _) =>
    case ReleaseStep(_, _) =>
    case PruneStep(_, _) =>
  }

  lemma {:induction false} RunKeepsInv(ws: seq<World>, steps: seq<Step>, n: nat)
    requires IsRun(ws, steps) && n < |ws|
    ensures Inv(ws[n])
  {
    if n > 0 {
      RunKeepsInv(ws, steps, n - 1);
      StepKeepsInv(ws[n - 1], steps[n - 1]);
    }
  }

  /** Over any run, no two tickets for one row carry the same attempt, and attempts only grow. */
  lemma EachAttemptIsHandedOutOnce(ws: seq<World>, steps: seq<Step>, n: nat, i: nat, j: nat)
    requires IsRun(ws, steps) && n < |ws| && i < j < |ws[n].handed|
    requires ws[n].handed[i].key == ws[n].handed[j].key
    ensures ws[n].handed[i].attempts < ws[n].handed[j].attempts
  {
    RunKeepsInv(ws, steps, n);
  }

  /** A mark or a release takes effect only for the latest ticket that was handed out for the row. */
  lemma OnlyTheLatestTicketHolds(ws: seq<World>, steps: seq<Step>, n: nat, k: Ticket)
    requires IsRun(ws, steps) && n < |ws| && Holds(ws[n].table, k)
    ensures k in ws[n].handed
    ensures forall t :: t in ws[n].handed && t.key == k.key ==> t == k || t.attempts < k.attempts
  {
    RunKeepsInv(ws, steps, n);
    forall t | t in ws[n].handed && t.key == k.key
      ensures t == k || t.attempts < k.attempts
    {
      var i :| 0 <= i < |ws[n].handed| && ws[n].handed[i] == t;
      var j :| 0 <= j < |ws[n].handed| && ws[n].handed[j] == k;
      assert i < j || j < i || t == k;
    }
  }

  /** An event is published at most once, and until it is, its row is pending. */
  lemma PublishedOnceOrPending(ws: seq<World>, steps: seq<Step>, n: nat)
    requires IsRun(ws, steps) && n < |ws|
    ensures DistinctKeys(ws[n].published)
    ensures forall k :: k in ws[n].committed ==>
              (k in ws[n].published <==> !(k in ws[n].table && ws[n].table[k].publishedAt.None?))
  {
    RunKeepsInv(ws, steps, n);
  }

  /** One step leaves what is published, and hands out no ticket for it. */
  lemma StepKeepsPublished(w: World, s: Step, k: RowKey)
    requires Inv(w) && Enabled(w, s) && k in w.published
    ensures k in Take(w, s).published && w.handed <= Take(w, s).handed
    ensures forall i :: |w.handed| <= i < |Take(w, s).handed| ==> Take(w, s).handed[i].key != k
  {
    if s.ClaimStep? {
      forall i | 0 <= i < |s.selected|
        ensures s.selected[i] != k
      {
        assert s.selected[i] in Eligible(w.table, s.now);
      }
    }
  }

  /** Published is for ever: the mark is never undone, and no later claim hands the row out. */
  lemma {:induction false} PublishedForever(ws: seq<World>, steps: seq<Step>, m: nat, n: nat, k: RowKey)
    requires IsRun(ws, steps) && m <= n < |ws| && k in ws[m].published
    ensures k in ws[n].published
    ensures ws[m].handed <= ws[n].handed
    ensures forall i :: |ws[m].handed| <= i < |ws[n].handed| ==> ws[n].handed[i].key != k
  {
    hide Inv, Take, Enabled;
    if m < n {
      PublishedForever(ws, steps, m, n - 1, k);
      RunKeepsInv(ws, steps, n - 1);
      assert Enabled(ws[n - 1], steps[n - 1]);
      StepKeepsPublished(ws[n - 1], steps[n - 1], k);
    }
  }

  /** No claim takes a row whose lease is unexpired by the claimant's clock, or one that is published. */
  lemma ClaimRespectsLeases(w: World, s: Step, t: Ticket)
    requires s.ClaimStep? && Enabled(w, s)
    requires t in TicketsFor(w.table, s.selected, s.owner)
    ensures t.key in w.table && w.table[t.key].publishedAt.None?
    ensures w.table[t.key].leaseUntil.Some? ==> w.table[t.key].leaseUntil.value <= s.now
    ensures Take(w, s).table[t.key].leaseUntil == Some(s.until) && Holds(Take(w, s).table, t)
  {
    var i :| 0 <= i < |s.selected| && TicketsFor(w.table, s.selected, s.owner)[i] == t;
    assert s.selected[i] in Eligible(w.table, s.now);
  }
}
