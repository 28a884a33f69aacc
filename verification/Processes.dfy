/**
  Several processes of the application service over one database, each with its own states in memory.
  A process reads the head, then the state at the head, and then writes; the others may do anything
  in between. What keeps ledgers and memory right, and exactly when memory goes wrong.
 */
module Processes {
  import opened Types
  import opened Chain
  import opened Aggregate
  import opened Fold
  import opened EventStore
  import opened ServiceLedger

  // ---------------------------------------------------------------- what a process may hold

  /** The state is the fold of a prefix of the ledger. */
  predicate HoldsPrefix(twin: Id, events: seq<Event>, s: Twin) {
    s.seqNo <= |events| && FoldAll(twin, events[..s.seqNo]) == Ok(s)
  }

  predicate RightFor(twin: Id, events: seq<Event>, held: Cache) {
    twin in held ==> HoldsPrefix(twin, events, held[twin])
  }

  /** All that a process holds is right. */
  ghost predicate AllRight(db: Db, held: Cache) {
    forall t :: RightFor(t, Ledger(db, t), held)
  }

  lemma PrefixStaysHeld(twin: Id, events: seq<Event>, more: seq<Event>, s: Twin)
    requires HoldsPrefix(twin, events, s) && events <= more
    ensures HoldsPrefix(twin, more, s)
  {
    assert more[..s.seqNo] == events[..s.seqNo];
  }

  /** A right memory is as good as a replay, and reading the state at the head keeps it right. */
  lemma LatestIsFold(held: Cache, twin: Id, events: seq<Event>)
    requires RightFor(twin, events, held)
    ensures Latest(held, twin, events) == FoldAll(twin, events)
    ensures RightFor(twin, events, Refreshed(held, twin, events))
    ensures forall t :: t != twin ==>
      (t in Refreshed(held, twin, events) <==> t in held) && (t in held ==> Refreshed(held, twin, events)[t] == held[t])
  {
    hide FoldFrom, HeadHash;
    assert events[..|events|] == events;
    if FoldAll(twin, events).Ok? {
      FoldPosition(EmptyTwin(twin), events);
    }
  }

  // ---------------------------------------------------------------- from the admitted state to the answer

  /** The request, sealed as the next event after the state, is accepted; times and hashes play no part. */
  ghost predicate AcceptedAfter(s: Twin, req: Request) {
    exists e: Event :: e.req == req && e.seqNo == s.seqNo + 1 && Apply(s, e).error.None?
  }

  lemma PreviewedIsAccepted(head: nat, hash: Hash, latest: Result<Twin>, req: Request, given: nat, expected: int, previewAt: int)
    ensures var v := Judge(head, hash, latest, req, given, expected, previewAt);
            && (v.Previewed? ==> latest == Ok(v.state) && head == expected && v.state.seqNo == head
                                 && AcceptedAfter(v.state, req))
            && (v.Unpreviewed? ==> head != expected)
  {
    hide Apply, ValidEvent;
    var v := Judge(head, hash, latest, req, given, expected, previewAt);
    if v.Previewed? {
      var e := Seal(req, head + 1, previewAt, hash);
      assert e.req == req && e.seqNo == v.state.seqNo + 1;
    }
  }

  /** Beyond the first one, the number of an event has no influence on whether it is accepted. */
  lemma NumberIrrelevant(s: Twin, a: Event, b: Event)
    requires a.req == b.req.(eventId := a.req.eventId) && a.seqNo >= 1 && b.seqNo >= 1
    ensures Apply(s, a).error == Apply(s, b).error
  {}

  lemma SameRequestIsAccepted(s: Twin, req: Request, e: Event)
    requires AcceptedAfter(s, req) && SameRequest(e.req, req) && e.seqNo >= 1
    requires e.req.twin == req.twin && e.req.key == req.key
    ensures Apply(s, e).error.None?
  {
    hide Apply;
    var sealed: Event :| sealed.req == req && sealed.seqNo == s.seqNo + 1 && Apply(s, sealed).error.None?;
    NumberIrrelevant(s, sealed, e);
  }

  lemma AcceptedEventReplays(twin: Id, events: seq<Event>, head: nat, s: Twin)
    requires head < |events| && IsChain(events) && FoldAll(twin, events[..head]) == Ok(s)
    requires Apply(s, events[head]).error.None?
    ensures FoldAll(twin, events[..head + 1]) == Ok(Apply(s, events[head]).state)
  {
    hide Apply;
    FoldPosition(EmptyTwin(twin), events[..head]);
    assert LinkHolds(events, head);
    FoldSnoc(EmptyTwin(twin), events[..head], events[head]);
    assert events[..head] + [events[head]] == events[..head + 1];
  }

  /** The event stands at its place in the ledger and records the given request. */
  predicate StandsIn(events: seq<Event>, e: Event, req: Request) {
    && 1 <= e.seqNo <= |events| && e == events[e.seqNo - 1]
    && e.req.twin == req.twin && SameRequest(e.req, req) && e.req.key == req.key
  }

  lemma AnswerStands(db: Db, req: Request, expected: int, now: int)
    requires StoreSound(db) && AppendTo(db, req, expected, now).1.Ok?
    ensures StandsIn(Ledger(AppendTo(db, req, expected, now).0, req.twin), AppendTo(db, req, expected, now).1.value, req)
  {
    hide IndexOf, StoreSound, IsChain, FindKey;
    LedgerIsSound(db, req.twin);
    var held := FindKey(Ledger(db, req.twin), req.key);
    if held.Some? {
      var i :| 0 <= i < |Ledger(db, req.twin)| && Ledger(db, req.twin)[i] == held.value;
    }
  }

  /** An admitted state advances to the fold if the answer is the very next event. */
  lemma NextIsRight(twin: Id, events: seq<Event>, s: Twin, req: Request, e: Event)
    requires LedgerSound(twin, events) && HoldsPrefix(twin, events, s) && AcceptedAfter(s, req)
    requires StandsIn(events, e, req) && e.seqNo == s.seqNo + 1
    ensures Apply(s, e).error.None? && Apply(s, e).state.seqNo == e.seqNo && HoldsPrefix(twin, events, Apply(s, e).state)
  {
    hide Apply, AcceptedAfter, SameRequest;
    ChainIsNumbered(events);
    hide LinkHolds, FoldFrom, IsChain;
    SameRequestIsAccepted(s, req, e);
    AcceptedEventReplays(twin, events, s.seqNo, s);
    AppliedPosition(s, e);
  }

  /** A write leaves the store as it is, or adds its answer as the next event of the ledger that it expects. */
  lemma CommitIsNext(db: Db, req: Request, expected: int, now: int)
    ensures var (after, r) := AppendTo(db, req, expected, now);
            after != db ==>
              && r == Ok(NextEvent(db, req, now)) && |Ledger(db, req.twin)| == expected
              && Ledger(after, req.twin) == Ledger(db, req.twin) + [r.value] && r.value.seqNo == expected + 1
  {
    hide FindKey, IndexOf;
  }

  /** What an append does to a ledger of which some prefix was read before. */
  lemma AnswerBeyond(db: Db, req: Request, expected: int, now: int)
    requires StoreSound(db)
    ensures var (after, r) := AppendTo(db, req, expected, now);
            && StoreSound(after) && Ledger(db, req.twin) <= Ledger(after, req.twin)
            && (r.Ok? ==> StandsIn(Ledger(after, req.twin), r.value, req))
            && (after != db ==>
                  && r == Ok(NextEvent(db, req, now)) && |Ledger(db, req.twin)| == expected
                  && Ledger(after, req.twin) == Ledger(db, req.twin) + [r.value] && r.value.seqNo == expected + 1)
  {
    hide AppendTo, StandsIn, StoreSound, Ledger, NextEvent;
    AppendKeepsSound(db, req, expected, now);
    AppendOnlyExtends(db, req, expected, now, req.twin);
    CommitIsNext(db, req, expected, now);
    if AppendTo(db, req, expected, now).1.Ok? {
      AnswerStands(db, req, expected, now);
    }
  }

  /** What a process holds between its reading and its write: nothing, or the admitted fold at the head. */
  ghost predicate Admitted(twin: Id, events: seq<Event>, req: Request, head: nat, expected: int, current: Option<Twin>) {
    && head <= |events|
    && (current.None? ==> head != expected)
    && (current.Some? ==>
          && head == expected && current.value.seqNo == head
          && HoldsPrefix(twin, events, current.value) && AcceptedAfter(current.value, req))
  }

  /** No answer lands more than one beyond the head that was read. */
  ghost predicate LandsNear(db: Db, req: Request, expected: int, now: int, head: nat) {
    var r := AppendTo(db, req, expected, now).1;
    r.Ok? ==> r.value.seqNo <= head + 1
  }

  lemma WholeIsFold(twin: Id, events: seq<Event>, s: Twin)
    requires HoldsPrefix(twin, events, s)
    ensures s.seqNo == |events| ==> FoldAll(twin, events) == Ok(s)
  {
    hide FoldFrom;
    assert events[..|events|] == events;
  }

  /** An answer that stands near in the ledger leaves memory right. */
  lemma KeptIsRight(twin: Id, events: seq<Event>, more: seq<Event>, req: Request, head: nat, expected: int,
                    current: Option<Twin>, held: Cache, answer: Result<Event>)
    requires events <= more && LedgerSound(twin, more) && RightFor(twin, events, held)
    requires Admitted(twin, events, req, head, expected, current)
    requires answer.Ok? ==> StandsIn(more, answer.value, req) && answer.value.seqNo <= head + 1
    ensures RightFor(twin, more, Kept(held, twin, head, current, answer))
    ensures current.Some? && answer.Ok? && answer.value.seqNo == head + 1 == |more| ==> FoldAll(twin, more).Ok?
  {
    hide Apply, AcceptedAfter, FoldAll, StandsIn, LedgerSound, HoldsPrefix;
    if twin in held {
      PrefixStaysHeld(twin, events, more, held[twin]);
    }
    if answer.Ok? && answer.value.seqNo > head && current.Some? {
      PrefixStaysHeld(twin, events, more, current.value);
      NextIsRight(twin, more, current.value, req, answer.value);
      WholeIsFold(twin, more, Apply(current.value, answer.value).state);
    }
  }

  /** A write whose answer lands near keeps memory right and the ledger replayable. */
  lemma WriteStaysRight(db: Db, req: Request, expected: int, now: int, head: nat, current: Option<Twin>, held: Cache)
    requires StoreSound(db) && Admitted(req.twin, Ledger(db, req.twin), req, head, expected, current)
    requires RightFor(req.twin, Ledger(db, req.twin), held) && LandsNear(db, req, expected, now, head)
    ensures var (after, r) := AppendTo(db, req, expected, now);
            && RightFor(req.twin, Ledger(after, req.twin), Kept(held, req.twin, head, current, r))
            && (FoldAll(req.twin, Ledger(db, req.twin)).Ok? ==> FoldAll(req.twin, Ledger(after, req.twin)).Ok?)
  {
    hide AppendTo, StoreSound, Kept, AcceptedAfter, FoldAll, StandsIn, LedgerSound, HoldsPrefix, RightFor, Ledger, NextEvent;
    var (after, r) := AppendTo(db, req, expected, now);
    AnswerBeyond(db, req, expected, now);
    LedgerIsSound(after, req.twin);
    KeptIsRight(req.twin, Ledger(db, req.twin), Ledger(after, req.twin), req, head, expected, current, held, r);
  }

  lemma HeadLandsNear(db: Db, req: Request, expected: int, now: int)
    requires StoreSound(db)
    ensures LandsNear(db, req, expected, now, |Ledger(db, req.twin)|)
  {
    hide FindKey, StoreSound, IndexOf;
    LedgerIsSound(db, req.twin);
    var held := FindKey(Ledger(db, req.twin), req.key);
    if held.Some? {
      var i :| 0 <= i < |Ledger(db, req.twin)| && Ledger(db, req.twin)[i] == held.value;
    }
  }

  lemma OtherLedgersStay(db: Db, req: Request, expected: int, now: int, twin: Id)
    requires twin != req.twin
    ensures Ledger(AppendTo(db, req, expected, now).0, twin) == Ledger(db, twin)
  {
    hide FindKey, IndexOf;
  }

  lemma FoldIsHeld(twin: Id, events: seq<Event>)
    ensures FoldAll(twin, events).Ok? ==>
      FoldAll(twin, events).value.seqNo == |events| && HoldsPrefix(twin, events, FoldAll(twin, events).value)
  {
    hide ReplayStep;
    assert events[..|events|] == events;
    if FoldAll(twin, events).Ok? {
      FoldPosition(EmptyTwin(twin), events);
    }
  }

  /** The state that a preview admitted accepts the answer of the store, wherever that stands. */
  lemma AdmittedAcceptsAnswer(db: Db, head: nat, hash: Hash, latest: Result<Twin>, req: Request, given: nat, expected: int,
                              previewAt: int, now: int)
    requires StoreSound(db)
    ensures var v, r := Judge(head, hash, latest, req, given, expected, previewAt), AppendTo(db, req, expected, now).1;
            v.Previewed? && r.Ok? ==> Apply(v.state, r.value).error.None?
  {
    hide Apply, AppendTo, StoreSound, AcceptedAfter, Judge, Ledger;
    PreviewedIsAccepted(head, hash, latest, req, given, expected, previewAt);
    AnswerBeyond(db, req, expected, now);
    var v, r := Judge(head, hash, latest, req, given, expected, previewAt), AppendTo(db, req, expected, now).1;
    if v.Previewed? && r.Ok? {
      SameRequestIsAccepted(v.state, req, r.value);
    }
  }

  lemma AwayFromHead(db: Db, req: Request, expected: int, now: int)
    requires StoreSound(db) && |Ledger(db, req.twin)| != expected
    ensures var r := AppendTo(db, req, expected, now).1; r.Ok? ==> r.value.seqNo <= |Ledger(db, req.twin)|
  {
    UnpreviewedChangesNothing(db, req, expected, now);
    hide StoreSound, AppendTo, SameRequest;
    AnswerBeyond(db, req, expected, now);
  }

  /** A process whose memory is right appends as a sole process does, and its memory stays right. */
  lemma SoleAppendStaysRight(db: Db, held: Cache, req: Request, given: nat, expected: int, previewAt: int, now: int)
    requires StoreSound(db) && RightFor(req.twin, Ledger(db, req.twin), held)
    ensures var (after, r) := ProcessAppend(db, held, req, given, expected, previewAt, now);
            && (after, r) == ServiceAppend(db, req, given, expected, previewAt, now)
            && RightFor(req.twin, Ledger(after, req.twin), HeldAfter(db, held, req, given, expected, previewAt, now))
            && (r.Ok? && r.value.seqNo > |Ledger(db, req.twin)| ==> FoldAll(req.twin, Ledger(after, req.twin)).Ok?)
  {
    hide StoreSound, FoldAll, AppendTo, Judge, ServiceAppend, Kept, Refreshed, Latest, HoldsPrefix, ValidEvent, LandsNear,
         AcceptedAfter;
    var events := Ledger(db, req.twin);
    var v := Judge(|events|, HeadHash(events), Latest(held, req.twin, events), req, given, expected, previewAt);
    LatestIsFold(held, req.twin, events);
    FoldIsHeld(req.twin, events);
    SoleProcess(db, req, given, expected, previewAt, now);
    PreviewedIsAccepted(|events|, HeadHash(events), Latest(held, req.twin, events), req, given, expected, previewAt);
    HeadLandsNear(db, req, expected, now);
    AnswerBeyond(db, req, expected, now);
    var looked := Looked(held, events, |events|, req, given, expected);
    if v.Unpreviewed? {
      WriteStaysRight(db, req, expected, now, |events|, None, looked);
      AwayFromHead(db, req, expected, now);
    } else if v.Previewed? {
      WriteStaysRight(db, req, expected, now, |events|, Some(v.state), looked);
    }
  }

  /** An append touches neither the ledgers nor what is held of other twins. */
  lemma OtherTwinsStay(db: Db, held: Cache, req: Request, given: nat, expected: int, previewAt: int, now: int, other: Id)
    requires other != req.twin
    ensures Ledger(ProcessAppend(db, held, req, given, expected, previewAt, now).0, other) == Ledger(db, other)
    ensures var after := HeldAfter(db, held, req, given, expected, previewAt, now);
            (other in after <==> other in held) && (other in held ==> after[other] == held[other])
  {
    hide AppendTo, FoldAll, Apply, ValidEvent, Latest, Try, Ledger;
    OtherLedgersStay(db, req, expected, now, other);
  }

  // ---------------------------------------------------------------- runs

  /** Where an append of a process stands; of the ledger it keeps the number and hash of the head it read. */
  datatype Phase =
    | Ready
    | Reading(call: ServiceCall, head: nat, hash: Hash)
    | Writing(call: ServiceCall, head: nat, current: Option<Twin>)

  datatype Process = Process(held: Cache, phase: Phase)

  datatype World = World(db: Db, processes: seq<Process>)

  datatype Step =
    | ReadHead(p: nat, call: ServiceCall)
    | ReadState(p: nat)
    | Persist(p: nat)
    | Query(p: nat, twin: Id)
    | Forget(p: nat, twin: Id)
    | Restart(p: nat)

  /** Processes that just started, over an empty database. */
  function Start(n: nat): World {
    World(EMPTY_DB, seq(n, _ => Process(map[], Ready)))
  }

  /** Within a process an append is not interrupted; but evictions may come at any time, and so may a crash. */
  predicate Enabled(w: World, s: Step) {
    && s.p < |w.processes|
    && match s
       case ReadHead(p, _) => w.processes[p].phase.Ready?
       case ReadState(p) => w.processes[p].phase.Reading?
       case Persist(p) => w.processes[p].phase.Writing?
       case Query(p, _) => w.processes[p].phase.Ready?
       case Forget(_, _) => true
       case Restart(_) => true
  }

  function ReadStateOf(db: Db, pr: Process): Process
    requires pr.phase.Reading?
  {
    var (call, head) := (pr.phase.call, pr.phase.head);
    var twin := call.req.twin;
    var events := Ledger(db, twin);
    Process(
      Looked(pr.held, events, head, call.req, call.given, call.expected),
      match Judge(head, pr.phase.hash, Latest(pr.held, twin, events), call.req, call.given, call.expected, call.previewAt)
      case Refused(_) => Ready
      case Unpreviewed => Writing(call, head, None)
      case Previewed(s) => Writing(call, head, Some(s)))
  }

  ghost function WriteOf(db: Db, pr: Process): (Db, Process)
    requires pr.phase.Writing?
  {
    var call := pr.phase.call;
    var (after, r) := AppendTo(db, call.req, call.expected, call.now);
    (after, Process(Kept(pr.held, call.req.twin, pr.phase.head, pr.phase.current, r), Ready))
  }

  /** A step that is not enabled does nothing. */
  ghost function Take(w: World, s: Step): World {
    if !Enabled(w, s) then w else
      var pr := w.processes[s.p];
      match s
      case ReadHead(p, call) =>
        var events := Ledger(w.db, call.req.twin);
        w.(processes := w.processes[p := pr.(phase := Reading(call, |events|, HeadHash(events)))])
      case ReadState(p) => w.(processes := w.processes[p := ReadStateOf(w.db, pr)])
      case Persist(p) => World(WriteOf(w.db, pr).0, w.processes[p := WriteOf(w.db, pr).1])
      case Query(p, twin) => w.(processes := w.processes[p := pr.(held := Refreshed(pr.held, twin, Ledger(w.db, twin)))])
      case Forget(p, twin) => w.(processes := w.processes[p := pr.(held := pr.held - {twin})])
      case Restart(p) => w.(processes := w.processes[p := Process(map[], Ready)])
  }

  ghost function After(w: World, steps: seq<Step>): World {
    if steps == [] then w else Take(After(w, steps[..|steps| - 1]), steps[|steps| - 1])
  }

  // ---------------------------------------------------------------- what stays right, and while

  ghost predicate ProcessRight(twin: Id, db: Db, pr: Process) {
    && RightFor(twin, Ledger(db, twin), pr.held)
    && match pr.phase
       case Ready => true
       case Reading(call, head, _) => call.req.twin == twin ==> head <= |Ledger(db, twin)|
       case Writing(call, head, current) =>
         call.req.twin == twin ==> Admitted(twin, Ledger(db, twin), call.req, head, call.expected, current)
  }

  /** The twin's ledger replays, and what the processes hold of the twin is right. */
  ghost predicate TwinRight(twin: Id, w: World) {
    && FoldAll(twin, Ledger(w.db, twin)).Ok?
    && forall i :: 0 <= i < |w.processes| ==> ProcessRight(twin, w.db, w.processes[i])
  }

  /** The step is no write to the twin, or its answer is at most one beyond the head that its caller read. */
  ghost predicate StepLandsNear(twin: Id, w: World, s: Step) {
    s.Persist? && Enabled(w, s) && w.processes[s.p].phase.call.req.twin == twin ==>
      var call := w.processes[s.p].phase.call;
      LandsNear(w.db, call.req, call.expected, call.now, w.processes[s.p].phase.head)
  }

  lemma AdmittedGrows(twin: Id, events: seq<Event>, more: seq<Event>, req: Request, head: nat, expected: int,
                      current: Option<Twin>)
    requires Admitted(twin, events, req, head, expected, current) && events <= more
    ensures Admitted(twin, more, req, head, expected, current)
  {
    hide AcceptedAfter, FoldFrom;
    if current.Some? {
      PrefixStaysHeld(twin, events, more, current.value);
    }
  }

  /** What a process holds and plans stays right while the ledger grows. */
  lemma ProcessStaysRight(twin: Id, db: Db, after: Db, pr: Process)
    requires ProcessRight(twin, db, pr) && Ledger(db, twin) <= Ledger(after, twin)
    ensures ProcessRight(twin, after, pr)
  {
    hide Admitted, FoldFrom, HoldsPrefix, Ledger;
    if twin in pr.held {
      PrefixStaysHeld(twin, Ledger(db, twin), Ledger(after, twin), pr.held[twin]);
    }
    if pr.phase.Writing? && pr.phase.call.req.twin == twin {
      AdmittedGrows(twin, Ledger(db, twin), Ledger(after, twin), pr.phase.call.req, pr.phase.head, pr.phase.call.expected,
                    pr.phase.current);
    }
  }

  lemma RefreshedElsewhere(held: Cache, twin: Id, events: seq<Event>, other: Id)
    requires other != twin
    ensures other in Refreshed(held, twin, events) <==> other in held
    ensures other in held ==> Refreshed(held, twin, events)[other] == held[other]
  {
    hide FoldFrom;
  }

  lemma ReadStateStaysRight(twin: Id, db: Db, pr: Process)
    requires ProcessRight(twin, db, pr) && pr.phase.Reading?
    ensures ProcessRight(twin, db, ReadStateOf(db, pr))
  {
    hide FoldFrom, HoldsPrefix, Refreshed, Judge, AcceptedAfter, ValidEvent, Latest, Ledger;
    var call, head := pr.phase.call, pr.phase.head;
    var events := Ledger(db, call.req.twin);
    PreviewedIsAccepted(head, pr.phase.hash, Latest(pr.held, call.req.twin, events), call.req, call.given, call.expected,
                        call.previewAt);
    if call.req.twin == twin {
      LatestIsFold(pr.held, twin, events);
      FoldIsHeld(twin, events);
    } else {
      RefreshedElsewhere(pr.held, call.req.twin, events, twin);
    }
  }

  lemma WriteStepStaysRight(twin: Id, db: Db, pr: Process)
    requires StoreSound(db) && ProcessRight(twin, db, pr) && pr.phase.Writing?
    requires var call := pr.phase.call; call.req.twin == twin ==> LandsNear(db, call.req, call.expected, call.now, pr.phase.head)
    ensures var (after, done) := WriteOf(db, pr);
            && StoreSound(after) && (forall t :: Ledger(db, t) <= Ledger(after, t))
            && ProcessRight(twin, after, done)
            && (FoldAll(twin, Ledger(db, twin)).Ok? ==> FoldAll(twin, Ledger(after, twin)).Ok?)
  {
    hide AppendTo, StoreSound, LandsNear, Admitted, FoldFrom, HoldsPrefix, Apply, Ledger;
    var call := pr.phase.call;
    AppendKeepsSound(db, call.req, call.expected, call.now);
    forall t
      ensures Ledger(db, t) <= Ledger(WriteOf(db, pr).0, t)
    {
      AppendOnlyExtends(db, call.req, call.expected, call.now, t);
    }
    if call.req.twin == twin {
      WriteStaysRight(db, call.req, call.expected, call.now, pr.phase.head, pr.phase.current, pr.held);
    } else {
      OtherLedgersStay(db, call.req, call.expected, call.now, twin);
    }
  }

  /** One process changes and the ledger may grow; the others are as right as before. */
  lemma OthersStayRight(twin: Id, w: World, v: World, p: nat)
    requires TwinRight(twin, w) && p < |w.processes| && |v.processes| == |w.processes|
    requires forall i :: 0 <= i < |w.processes| && i != p ==> v.processes[i] == w.processes[i]
    requires Ledger(w.db, twin) <= Ledger(v.db, twin) && FoldAll(twin, Ledger(v.db, twin)).Ok?
    requires ProcessRight(twin, v.db, v.processes[p])
    ensures TwinRight(twin, v)
  {
    hide ProcessRight, FoldFrom, Ledger;
    forall i | 0 <= i < |v.processes|
      ensures ProcessRight(twin, v.db, v.processes[i])
    {
      if i != p {
        ProcessStaysRight(twin, w.db, v.db, w.processes[i]);
      }
    }
  }

  lemma ReadHeadStaysRight(twin: Id, db: Db, pr: Process, call: ServiceCall)
    requires ProcessRight(twin, db, pr)
    ensures var events := Ledger(db, call.req.twin);
            ProcessRight(twin, db, pr.(phase := Reading(call, |events|, HeadHash(events))))
  {
    hide HoldsPrefix;
  }

  lemma QueryStaysRight(twin: Id, db: Db, pr: Process, other: Id)
    requires ProcessRight(twin, db, pr)
    ensures ProcessRight(twin, db, pr.(held := Refreshed(pr.held, other, Ledger(db, other))))
  {
    hide HoldsPrefix, Refreshed, Admitted, FoldFrom;
    if other == twin {
      LatestIsFold(pr.held, twin, Ledger(db, twin));
    } else {
      RefreshedElsewhere(pr.held, other, Ledger(db, other), twin);
    }
  }

  lemma ForgettingStaysRight(twin: Id, db: Db, pr: Process, other: Id)
    requires ProcessRight(twin, db, pr)
    ensures ProcessRight(twin, db, pr.(held := pr.held - {other}))
  {
    hide HoldsPrefix, Admitted;
  }

  lemma RestartIsRight(twin: Id, db: Db)
    ensures ProcessRight(twin, db, Process(map[], Ready))
  {}

  lemma StepStaysRight(twin: Id, w: World, s: Step)
    requires StoreSound(w.db) && TwinRight(twin, w) && StepLandsNear(twin, w, s)
    ensures StoreSound(Take(w, s).db) && TwinRight(twin, Take(w, s))
  {
    hide StoreSound, ProcessRight, ReadStateOf, WriteOf, LandsNear, FoldAll, Ledger, Refreshed;
    if Enabled(w, s) {
      var pr := w.processes[s.p];
      match s {
        case ReadHead(p, call) => ReadHeadStaysRight(twin, w.db, pr, call);
        case ReadState(p) => ReadStateStaysRight(twin, w.db, pr);
        case Persist(p) => WriteStepStaysRight(twin, w.db, pr);
        case Query(p, other) => QueryStaysRight(twin, w.db, pr, other);
        case Forget(p, other) => ForgettingStaysRight(twin, w.db, pr, other);
        case Restart(p) => RestartIsRight(twin, w.db);
      }
      OthersStayRight(twin, w, Take(w, s), s.p);
    }
  }

  /**
    Over any run of any number of processes, a twin's ledger replays and every process holds right
    states of it, as long as no answer for the twin lands more than one beyond the head that its caller
    had read. Other twins play no part.
   */
  lemma {:induction false} RunStaysRight(twin: Id, w: World, steps: seq<Step>)
    requires StoreSound(w.db) && TwinRight(twin, w)
    requires forall i :: 0 <= i < |steps| ==> StepLandsNear(twin, After(w, steps[..i]), steps[i])
    ensures StoreSound(After(w, steps).db) && TwinRight(twin, After(w, steps))
  {
    hide StoreSound, TwinRight, StepLandsNear, Take;
    if steps != [] {
      var n := |steps| - 1;
      forall i | 0 <= i < n
        ensures StepLandsNear(twin, After(w, steps[..n][..i]), steps[..n][i])
      {
        assert steps[..n][..i] == steps[..i];
      }
      RunStaysRight(twin, w, steps[..n]);
      assert StepLandsNear(twin, After(w, steps[..n]), steps[n]);
      StepStaysRight(twin, After(w, steps[..n]), steps[n]);
    }
  }

  lemma StartIsRight(twin: Id, n: nat)
    ensures StoreSound(Start(n).db) && TwinRight(twin, Start(n))
  {
    EmptyDbIsSound();
  }

  // ---------------------------------------------------------------- one process

  /** Nobody else writes between the reading of a head and the write. */
  predicate HeadIsCurrent(w: World) {
    && |w.processes| == 1
    && match w.processes[0].phase
       case Ready => true
       case Reading(call, head, _) => head == |Ledger(w.db, call.req.twin)|
       case Writing(call, head, _) => head == |Ledger(w.db, call.req.twin)|
  }

  lemma AloneStaysCurrent(w: World, s: Step)
    requires HeadIsCurrent(w)
    ensures HeadIsCurrent(Take(w, s))
  {
    hide AppendTo, Refreshed, Latest, Judge, Ledger, Kept;
  }

  lemma AloneLandsNear(w: World, s: Step, twin: Id)
    requires HeadIsCurrent(w) && StoreSound(w.db)
    ensures StepLandsNear(twin, w, s)
  {
    hide LandsNear, StoreSound;
    if s.Persist? && Enabled(w, s) {
      var call := w.processes[s.p].phase.call;
      HeadLandsNear(w.db, call.req, call.expected, call.now);
    }
  }

  lemma StartIsCurrent()
    ensures HeadIsCurrent(Start(1))
  {}

  /** A single process is always right, whatever it is asked to append. */
  lemma {:induction false} OneProcessStaysRight(twin: Id, steps: seq<Step>)
    ensures var w := After(Start(1), steps); HeadIsCurrent(w) && StoreSound(w.db) && TwinRight(twin, w)
  {
    hide StoreSound, TwinRight, StepLandsNear, Take, HeadIsCurrent;
    if steps == [] {
      StartIsRight(twin, 1);
      assert HeadIsCurrent(Start(1)) by {
        StartIsCurrent();
      }
    } else {
      var w, s := After(Start(1), steps[..|steps| - 1]), steps[|steps| - 1];
      OneProcessStaysRight(twin, steps[..|steps| - 1]);
      AloneLandsNear(w, s, twin);
      AloneStaysCurrent(w, s);
      StepStaysRight(twin, w, s);
    }
  }
}
