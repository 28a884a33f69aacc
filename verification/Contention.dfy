/**
  One run of two service processes from the empty database, step by step: a process skips an event of
  the other one, its memory passes for the latest state, and its next append, which expects the very
  head that it reads, leaves a ledger that no longer replays.
 */
module Contention {
  import opened Types
  import opened Chain
  import opened Aggregate
  import opened Fold
  import opened EventStore
  import opened ServiceLedger
  import opened Processes
  import opened Instances

  const EVIDENCE := EvidenceIngested(1, SOURCE)
  const OUTAGE := DegradationDeclared(1)

  /** The first process asks for the outage; the second records evidence and then the same outage. */
  const OUTAGE_CALL := ServiceCall(Ask(2, OUTAGE), 0, 0, 1, 4)
  const EVIDENCE_CALL := ServiceCall(Ask(1, EVIDENCE), 0, 0, 1, 2)
  const SAME_OUTAGE_CALL := ServiceCall(Ask(2, OUTAGE).(eventId := 5), 0, 1, 1, 3)

  /** Evidence that is present already, under another key, by a caller who expects the head as it is. */
  const EVIDENCE_AGAIN_CALL := ServiceCall(Ask(3, EVIDENCE), 0, 2, 5, 6)

  const SKIPPING := [ReadHead(0, OUTAGE_CALL), ReadState(0),
                     ReadHead(1, EVIDENCE_CALL), ReadState(1), Persist(1),
                     ReadHead(1, SAME_OUTAGE_CALL), ReadState(1), Persist(1),
                     Persist(0)]

  const EVIDENCE_AGAIN := [ReadHead(0, EVIDENCE_AGAIN_CALL), ReadState(0), Persist(0)]

  const E1 := Seal(Ask(1, EVIDENCE), 1, 2, NoHash)
  const E2 := Seal(Ask(2, OUTAGE).(eventId := 5), 2, 3, E1.hash)
  const E3 := Seal(Ask(3, EVIDENCE), 3, 6, E2.hash)

  const BOUND := NO_FACTS.(subject := Some(SUBJECT), evidence := map[1 := SOURCE])
  const S1 := Twin(TWIN, 1, E1.hash, BOUND)
  const S2 := Twin(TWIN, 2, E2.hash, BOUND.(degraded := [1]))

  /** What the first process makes of the second event. */
  const MISLED := Twin(TWIN, 2, E2.hash, NO_FACTS.(degraded := [1]))

  // ---------------------------------------------------------------- the events

  lemma Transitions()
    ensures Apply(EmptyTwin(TWIN), E1) == Applied(S1, None)
    ensures Apply(S1, E2) == Applied(S2, None)
    ensures Apply(EmptyTwin(TWIN), E2) == Applied(MISLED, None)
    ensures Apply(S2, E3).error.Some? && Apply(MISLED, E3).error.None?
  {}

  lemma FoldsNext(events: seq<Event>, s: Twin, e: Event)
    requires FoldAll(TWIN, events) == Ok(s) && e.seqNo == s.seqNo + 1 && Verifies(e, s.lastHash)
    ensures FoldAll(TWIN, events + [e]) == (var a := Apply(s, e); if a.error.Some? then Err(a.error.value) else Ok(a.state))
  {
    hide Apply, Verifies;
    FoldSnoc(EmptyTwin(TWIN), events, e);
  }

  lemma Folds()
    ensures FoldAll(TWIN, []) == Ok(EmptyTwin(TWIN)) && FoldAll(TWIN, [E1]) == Ok(S1)
    ensures FoldAll(TWIN, [E1, E2]) == Ok(S2) && FoldAll(TWIN, [E1, E2, E3]).Err?
  {
    assert FoldAll(TWIN, []) == Ok(EmptyTwin(TWIN));
    hide Apply, FoldAll;
    Transitions();
    FoldsNext([], EmptyTwin(TWIN), E1);
    assert [] + [E1] == [E1];
    FoldsNext([E1], S1, E2);
    assert [E1] + [E2] == [E1, E2];
    FoldsNext([E1, E2], S2, E3);
    assert [E1, E2] + [E3] == [E1, E2, E3];
  }

  // ---------------------------------------------------------------- the store

  predicate HoldsOnly(db: Db, events: seq<Event>) {
    db.ledgers == if events == [] then map[] else map[TWIN := events]
  }

  lemma HoldsFinds(db: Db, events: seq<Event>, id: Id)
    requires HoldsOnly(db, events)
    ensures Ledger(db, TWIN) == events
    ensures (forall i :: 0 <= i < |events| ==> events[i].req.eventId != id) ==> !EventIdTaken(db, id)
  {}

  /** A new request at the head commits. */
  lemma Commits(db: Db, events: seq<Event>, req: Request, now: int)
    requires HoldsOnly(db, events) && req.twin == TWIN && req.version.V2? && !req.plane.Simulation?
    requires forall i :: 0 <= i < |events| ==> events[i].req.eventId != req.eventId && events[i].req.key != req.key
    ensures var (after, r) := AppendTo(db, req, |events|, now);
            && r == Ok(Seal(req, |events| + 1, now, HeadHash(events)))
            && HoldsOnly(after, events + [r.value])
  {
    hide FindKey, IndexOf;
    HoldsFinds(db, events, req.eventId);
    var more := events + [Seal(req, |events| + 1, now, HeadHash(events))];
    assert more != [] && db.ledgers[TWIN := more] == map[TWIN := more];
  }

  /** The outage is found again under its key. */
  lemma Answers(db: Db)
    requires HoldsOnly(db, [E1, E2])
    ensures AppendTo(db, Ask(2, OUTAGE), 0, 4) == (db, Ok(E2))
  {
    HoldsFinds(db, [E1, E2], 0);
    assert [E1, E2][1..] == [E2];
    assert FindKey([E2], Given(2)) == Some(E2);
    assert FindKey([E1, E2], Given(2)) == FindKey([E2], Given(2));
  }

  // ---------------------------------------------------------------- the steps

  lemma Reads(w: World, c: ServiceCall, p: nat, s: Twin)
    requires p < |w.processes| && w.processes[p].phase.Ready? && c.req.twin == TWIN
    requires var events := Ledger(w.db, TWIN);
             && Latest(w.processes[p].held, TWIN, events) == Ok(s) && |events| == c.expected
             && Judge(|events|, HeadHash(events), Ok(s), c.req, c.given, c.expected, c.previewAt) == Previewed(s)
    ensures var v := Take(Take(w, ReadHead(p, c)), ReadState(p));
            && v.db == w.db && |v.processes| == |w.processes|
            && (forall i :: 0 <= i < |w.processes| && i != p ==> v.processes[i] == w.processes[i])
            && v.processes[p].phase == Writing(c, |Ledger(w.db, TWIN)|, Some(s))
  {
    hide Ledger, Latest, Judge, Looked, HeadHash;
  }

  lemma Writes(w: World, p: nat, after: Db, e: Event)
    requires p < |w.processes| && w.processes[p].phase.Writing? && w.processes[p].phase.call.req.twin == TWIN
    requires var phase := w.processes[p].phase;
             && AppendTo(w.db, phase.call.req, phase.call.expected, phase.call.now) == (after, Ok(e))
             && e.seqNo > phase.head && phase.current.Some? && Apply(phase.current.value, e).error.None?
    ensures var v := Take(w, Persist(p));
            && v.db == after && |v.processes| == |w.processes|
            && (forall i :: 0 <= i < |w.processes| && i != p ==> v.processes[i] == w.processes[i])
            && v.processes[p].phase.Ready? && TWIN in v.processes[p].held
            && v.processes[p].held[TWIN] == Apply(w.processes[p].phase.current.value, e).state
  {
    hide AppendTo, Apply;
  }

  lemma {:induction false} AfterSplit(w: World, a: seq<Step>, b: seq<Step>)
    ensures After(w, a + b) == After(After(w, a), b)
  {
    hide Take;
    if b == [] {
      assert a + b == a;
    } else {
      AfterSplit(w, a, b[..|b| - 1]);
      assert (a + b)[..|a + b| - 1] == a + b[..|b| - 1];
    }
  }

  lemma AfterOne(w: World, s: Step)
    ensures After(w, [s]) == Take(w, s)
  {
    hide Take;
    assert [s][..0] == [];
  }

  lemma AfterTwo(w: World, s: Step, t: Step)
    ensures After(w, [s, t]) == Take(Take(w, s), t)
  {
    hide Take;
    AfterOne(w, s);
    assert [s, t][..1] == [s];
  }

  lemma AfterThree(w: World, s: Step, t: Step, u: Step)
    ensures After(w, [s, t, u]) == Take(Take(Take(w, s), t), u)
  {
    hide Take;
    AfterTwo(w, s, t);
    assert [s, t, u][..2] == [s, t];
  }

  lemma Verdicts()
    ensures Judge(0, NoHash, Ok(EmptyTwin(TWIN)), OUTAGE_CALL.req, 0, 0, 1) == Previewed(EmptyTwin(TWIN))
    ensures Judge(0, NoHash, Ok(EmptyTwin(TWIN)), EVIDENCE_CALL.req, 0, 0, 1) == Previewed(EmptyTwin(TWIN))
    ensures Judge(1, E1.hash, Ok(S1), SAME_OUTAGE_CALL.req, 0, 1, 1) == Previewed(S1)
    ensures Judge(2, E2.hash, Ok(MISLED), EVIDENCE_AGAIN_CALL.req, 0, 2, 5) == Previewed(MISLED)
  {}

  lemma StartHolds()
    ensures HoldsOnly(Start(2).db, []) && |Start(2).processes| == 2
    ensures Start(2).processes[0] == Start(2).processes[1] == Process(map[], Ready)
  {}

  lemma Sees(w: World, p: nat, events: seq<Event>)
    requires p < |w.processes| && w.processes[p].held == map[] && HoldsOnly(w.db, events)
    ensures Ledger(w.db, TWIN) == events && Latest(w.processes[p].held, TWIN, events) == FoldAll(TWIN, events)
  {
    hide FoldAll;
  }

  lemma SeesHeld(w: World, p: nat, events: seq<Event>, s: Twin)
    requires p < |w.processes| && TWIN in w.processes[p].held && w.processes[p].held[TWIN] == s && HoldsOnly(w.db, events)
    requires s.seqNo == |events| && s.lastHash == HeadHash(events)
    ensures Ledger(w.db, TWIN) == events && Latest(w.processes[p].held, TWIN, events) == Ok(s)
  {
    hide FoldAll;
  }

  lemma EightSteps()
    ensures After(Start(2), SKIPPING[..8])
         == Take(Take(Take(Take(Take(Take(Take(Take(Start(2), ReadHead(0, OUTAGE_CALL)), ReadState(0)),
                 ReadHead(1, EVIDENCE_CALL)), ReadState(1)), Persist(1)),
                 ReadHead(1, SAME_OUTAGE_CALL)), ReadState(1)), Persist(1))
  {
    hide Take;
    var a, b, c := SKIPPING[..2], SKIPPING[2..5], SKIPPING[5..8];
    assert a == [ReadHead(0, OUTAGE_CALL), ReadState(0)];
    assert b == [ReadHead(1, EVIDENCE_CALL), ReadState(1), Persist(1)];
    assert c == [ReadHead(1, SAME_OUTAGE_CALL), ReadState(1), Persist(1)];
    assert SKIPPING[..8] == (a + b) + c;
    AfterSplit(Start(2), a + b, c);
    AfterSplit(Start(2), a, b);
    AfterTwo(Start(2), a[0], a[1]);
    AfterThree(After(Start(2), a), b[0], b[1], b[2]);
    AfterThree(After(Start(2), a + b), c[0], c[1], c[2]);
  }

  /** Where the run stands after the first process has read and the second has written twice. */
  lemma SecondProcessWrites() returns (w: World)
    ensures w == After(Start(2), SKIPPING[..8])
    ensures HoldsOnly(w.db, [E1, E2]) && |w.processes| == 2
    ensures w.processes[0].phase == Writing(OUTAGE_CALL, 0, Some(EmptyTwin(TWIN)))
  {
    hide Take, AppendTo, Latest, Judge, Apply, FoldAll, HoldsOnly;
    Folds();
    Transitions();
    Verdicts();
    var w0 := Start(2);
    StartHolds();
    var w2 := Take(Take(w0, ReadHead(0, OUTAGE_CALL)), ReadState(0));
    Sees(w0, 0, []);
    Reads(w0, OUTAGE_CALL, 0, EmptyTwin(TWIN));
    var w4 := Take(Take(w2, ReadHead(1, EVIDENCE_CALL)), ReadState(1));
    Sees(w2, 1, []);
    Reads(w2, EVIDENCE_CALL, 1, EmptyTwin(TWIN));
    Commits(w4.db, [], Ask(1, EVIDENCE), 2);
    assert [] + [E1] == [E1];
    var w5 := Take(w4, Persist(1));
    Writes(w4, 1, AppendTo(w4.db, Ask(1, EVIDENCE), 0, 2).0, E1);
    var w7 := Take(Take(w5, ReadHead(1, SAME_OUTAGE_CALL)), ReadState(1));
    SeesHeld(w5, 1, [E1], S1);
    Reads(w5, SAME_OUTAGE_CALL, 1, S1);
    Commits(w7.db, [E1], SAME_OUTAGE_CALL.req, 3);
    assert [E1] + [E2] == [E1, E2];
    w := Take(w7, Persist(1));
    Writes(w7, 1, AppendTo(w7.db, SAME_OUTAGE_CALL.req, 1, 3).0, E2);
    EightSteps();
  }

  /**
    The skip happens: the first process is answered with the second event, advances past the first one,
    and holds a state that stands at the head and is not the fold of the ledger, which replays.
   */
  lemma SkippedEventHappens() returns (w: World)
    ensures w == After(Start(2), SKIPPING)
    ensures HoldsOnly(w.db, [E1, E2]) && |w.processes| == 2 && w.processes[0].phase.Ready?
    ensures TWIN in w.processes[0].held && w.processes[0].held[TWIN] == MISLED
    ensures Latest(w.processes[0].held, TWIN, Ledger(w.db, TWIN)) == Ok(MISLED)
    ensures FoldAll(TWIN, Ledger(w.db, TWIN)) == Ok(S2) && S2 != MISLED
  {
    hide Take, AppendTo, Latest, Judge, Apply, FoldAll, HoldsOnly;
    Folds();
    Transitions();
    var before := SecondProcessWrites();
    Answers(before.db);
    Writes(before, 0, before.db, E2);
    w := Take(before, Persist(0));
    SeesHeld(w, 0, [E1, E2], MISLED);
    assert SKIPPING == SKIPPING[..8] + [Persist(0)];
    AfterSplit(Start(2), SKIPPING[..8], [Persist(0)]);
    AfterOne(before, Persist(0));
  }

  /**
    And it breaks the ledger: the first process next reads the head, expects exactly that head, previews
    evidence that is present already, finds nothing wrong with it, and commits it.
   */
  lemma SkippedEventBreaksReplay()
    ensures EVIDENCE_AGAIN_CALL.expected == |Ledger(After(Start(2), SKIPPING).db, TWIN)|
    ensures var w := After(Start(2), SKIPPING + EVIDENCE_AGAIN);
            |Ledger(w.db, TWIN)| == 3 && FoldAll(TWIN, Ledger(w.db, TWIN)).Err?
  {
    hide Take, AppendTo, Latest, Judge, Apply, FoldAll;
    Folds();
    Transitions();
    Verdicts();
    var w := SkippedEventHappens();
    SeesHeld(w, 0, [E1, E2], MISLED);
    Reads(w, EVIDENCE_AGAIN_CALL, 0, MISLED);
    var v := Take(Take(w, ReadHead(0, EVIDENCE_AGAIN_CALL)), ReadState(0));
    Commits(v.db, [E1, E2], EVIDENCE_AGAIN_CALL.req, 6);
    assert [E1, E2] + [E3] == [E1, E2, E3];
    Writes(v, 0, AppendTo(v.db, EVIDENCE_AGAIN_CALL.req, 2, 6).0, E3);
    AfterSplit(Start(2), SKIPPING, EVIDENCE_AGAIN);
    AfterThree(w, EVIDENCE_AGAIN[0], EVIDENCE_AGAIN[1], EVIDENCE_AGAIN[2]);
  }
}
