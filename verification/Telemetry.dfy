/**
  Batches of telemetry records: each record becomes evidence through the service, the expected
  sequence number is threaded through the batch, and every record gets its own acknowledgement.

  Reading a record's bytes (media type, content hash, JSON) is not part of the model; `decodable`
  says whether that succeeds. Its evidence identifier is the name that the program derives from
  the batch and the record identifier.
 */
module Telemetry {
  import opened Types
  import opened Chain
  import opened Aggregate
  import opened Fold
  import opened EventStore
  import opened ServiceLedger
  import Processes
  import Replay
  import opened Service

  datatype InputRecord = InputRecord(recordId: Id, evidence: Id, contentHash: Id,
                                     sensitivity: Option<Sensitivity>, group: Id, validFrom: int, validUntil: Option<int>,
                                     content: Id, decodable: bool)

  datatype InputBatch = InputBatch(twin: Id, subject: Id, source: Id, key: Id, expected: int, records: seq<InputRecord>)

  /** What the environment supplies for one record: a new event identifier and two clock readings. */
  datatype Draw = Draw(eventId: Id, previewAt: int, now: int)

  datatype Ack =
    | Committed(recordId: Id, eventId: Id, seqNo: nat)
    | Duplicate(recordId: Id, eventId: Id, seqNo: nat)
    | Rejected(recordId: Id, retryable: bool)

  const INGEST_SERVICE: Id := 1

  // ---------------------------------------------------------------- one record

  predicate ValidHeader(batch: InputBatch) {
    && batch.twin != NO_ID && batch.subject != NO_ID && batch.source != NO_ID && batch.key != NO_ID
    && batch.expected >= 0
    && forall i, j :: 0 <= i < j < |batch.records| ==> batch.records[i].recordId != batch.records[j].recordId
  }

  predicate ValidRecord(r: InputRecord) {
    && r.recordId != NO_ID && r.group != NO_ID && r.sensitivity.Some? && r.decodable
    && (r.validUntil.Some? ==> r.validUntil.value >= r.validFrom)
  }

  /** The idempotency key of a record, derived injectively from the names of twin, batch and record. */
  function KeyOf(batch: InputBatch, r: InputRecord): Key {
    RecordKey(batch.twin, batch.key, r.recordId)
  }

  function RequestFor(batch: InputBatch, r: InputRecord, actor: Id, eventId: Id): Request {
    var body := Evidence(batch.subject, r.contentHash, batch.source, r.sensitivity, r.group,
                         Validity(Some(r.validFrom), r.validUntil), r.content);
    Request(eventId, batch.twin, Authoritative, EvidenceIngested(r.evidence, body), r.validFrom, actor, INGEST_SERVICE,
            KeyOf(batch, r), V2, None, None)
  }

  /** Ingest one record as evidence; a twin that is bound to another subject refuses it. */
  ghost function Ingest(db: Db, batch: InputBatch, r: InputRecord, actor: Id, expected: int, d: Draw): (Db, Result<Event>) {
    match FoldAll(batch.twin, Ledger(db, batch.twin))
    case Err(e) => (db, Err(e))
    case Ok(s) =>
      if s.facts.subject.Some? && s.facts.subject.value != batch.subject then (db, Err(InvariantViolation))
      else ServiceAppend(db, RequestFor(batch, r, actor, d.eventId), 0, expected, d.previewAt, d.now)
  }

  // ---------------------------------------------------------------- the batch

  /** How far a batch has come; `raised` is an exception that ends it without an answer. */
  datatype Progress = Progress(expected: int, blocked: bool, acks: seq<Ack>, raised: Option<Error>)

  function Start(batch: InputBatch): Progress {
    Progress(batch.expected, false, [], None)
  }

  function Acknowledged(p: Progress, ack: Ack): Progress {
    p.(acks := p.acks + [ack])
  }

  /** What the answer to one record means for the batch; `head` was read before it was ingested. */
  function Settle(p: Progress, head: nat, r: InputRecord, answer: Result<Event>): Progress {
    match answer
    case Ok(e) =>
      var ack := if e.seqNo <= head then Duplicate(r.recordId, e.req.eventId, e.seqNo)
                 else Committed(r.recordId, e.req.eventId, e.seqNo);
      Acknowledged(p.(expected := if p.expected < e.seqNo then e.seqNo else p.expected), ack)
    case Err(ConcurrencyConflict) => Acknowledged(p.(blocked := true), Rejected(r.recordId, true))
    case Err(x) =>
      if x.InvariantViolation? || x.InvalidValue? then Acknowledged(p, Rejected(r.recordId, false))
      else p.(raised := Some(x))
  }

  ghost function ProcessOne(db: Db, p: Progress, batch: InputBatch, r: InputRecord, actor: Id, d: Draw): (Db, Progress) {
    if p.raised.Some? then (db, p)
    else if p.blocked then (db, Acknowledged(p, Rejected(r.recordId, true)))
    else if !ValidRecord(r) then (db, Acknowledged(p, Rejected(r.recordId, false)))
    else
      var (after, answer) := Ingest(db, batch, r, actor, p.expected, d);
      (after, Settle(p, |Ledger(db, batch.twin)|, r, answer))
  }

  /** The first n records of a batch, with no other writer in between. */
  ghost function ProcessRecords(db: Db, batch: InputBatch, actor: Id, draws: seq<Draw>, n: nat): (Db, Progress)
    requires n <= |batch.records| == |draws|
  {
    if n == 0 then (db, Start(batch)) else
      var (before, p) := ProcessRecords(db, batch, actor, draws, n - 1);
      ProcessOne(before, p, batch, batch.records[n - 1], actor, draws[n - 1])
  }

  // ---------------------------------------------------------------- what a batch accounts for

  function CommittedOnly(acks: seq<Ack>): seq<Ack> {
    if acks == [] then [] else
      CommittedOnly(acks[..|acks| - 1])
      + if acks[|acks| - 1].Committed? then [acks[|acks| - 1]] else []
  }

  /** The acknowledgements of the new events: their identifiers, in order, with contiguous numbers. */
  predicate AccountsFor(acks: seq<Ack>, events: seq<Event>, more: seq<Event>) {
    && events <= more && |more| - |events| == |acks|
    && forall k :: 0 <= k < |acks| ==>
         && acks[k].Committed? && acks[k].seqNo == |events| + k + 1
         && acks[k].eventId == more[|events| + k].req.eventId
  }

  /** Exactly one more acknowledgement, of the given record. */
  predicate OneMore(p: Progress, q: Progress, r: InputRecord) {
    |q.acks| == |p.acks| + 1 && p.acks <= q.acks && q.acks[|p.acks|].recordId == r.recordId
  }

  /** One record either leaves the store as it was, or commits one event at the head it expected. */
  ghost predicate Accounted(db: Db, p: Progress, after: Db, q: Progress, batch: InputBatch, r: InputRecord) {
    var events, more := Ledger(db, batch.twin), Ledger(after, batch.twin);
    && p.expected <= q.expected && (p.blocked ==> q.blocked)
    && (p.raised.Some? ==> q == p)
    && (q.raised.None? ==> OneMore(p, q, r))
    && (q.raised.Some? ==> q.acks == p.acks)
    && if after == db then OneMore(p, q, r) ==> !q.acks[|p.acks|].Committed?
       else
         && p.expected == |events| && q.expected == |more| && q.raised.None? && !p.blocked && !q.blocked
         && |more| == |events| + 1 && events <= more && ValidRecord(r) && more[|events|].req.key == KeyOf(batch, r)
         && q.acks == p.acks + [Committed(r.recordId, more[|events|].req.eventId, |more|)]
  }

  lemma OneAppend(db: Db, req: Request, expected: int, now: int)
    requires StoreSound(db)
    ensures var (after, r) := AppendTo(db, req, expected, now);
            var events, more := Ledger(db, req.twin), Ledger(after, req.twin);
            if after == db then r.Ok? ==> r.value.seqNo <= |events|
            else expected == |events| && r.Ok? && more == events + [r.value] && r.value.seqNo == |more| && r.value.req == req
  {
    hide StoreSound, IndexOf, FindKey, LedgerSound;
    LedgerIsSound(db, req.twin);
  }

  lemma OneRecord(db: Db, p: Progress, batch: InputBatch, r: InputRecord, actor: Id, d: Draw)
    requires StoreSound(db) && AllReplay(db)
    ensures var (after, q) := ProcessOne(db, p, batch, r, actor, d);
            StoreSound(after) && AllReplay(after) && Accounted(db, p, after, q, batch, r)
  {
    hide FoldAll, StoreSound, AllReplay, ValidEvent, Preview, AppendTo;
    if p.raised.None? && !p.blocked && ValidRecord(r) {
      var req := RequestFor(batch, r, actor, d.eventId);
      ServiceKeepsReplayable(db, req, 0, p.expected, d.previewAt, d.now);
      OneAppend(db, req, p.expected, d.now);
    }
  }

  lemma {:induction false} BatchKeepsSound(db: Db, batch: InputBatch, actor: Id, draws: seq<Draw>, n: nat)
    requires StoreSound(db) && AllReplay(db) && n <= |batch.records| == |draws|
    ensures StoreSound(ProcessRecords(db, batch, actor, draws, n).0) && AllReplay(ProcessRecords(db, batch, actor, draws, n).0)
  {
    hide StoreSound, AllReplay, ProcessOne, Accounted;
    if n > 0 {
      BatchKeepsSound(db, batch, actor, draws, n - 1);
      var (before, p) := ProcessRecords(db, batch, actor, draws, n - 1);
      OneRecord(before, p, batch, batch.records[n - 1], actor, draws[n - 1]);
    }
  }

  lemma NothingToAccountFor(events: seq<Event>)
    ensures AccountsFor(CommittedOnly([]), events, events)
  {}

  lemma AccountsForOneMore(db: Db, before: Db, p: Progress, after: Db, q: Progress, batch: InputBatch, r: InputRecord)
    requires AccountsFor(CommittedOnly(p.acks), Ledger(db, batch.twin), Ledger(before, batch.twin))
    requires Accounted(before, p, after, q, batch, r)
    ensures AccountsFor(CommittedOnly(q.acks), Ledger(db, batch.twin), Ledger(after, batch.twin))
  {
    hide Ledger, ValidRecord;
    if |q.acks| == |p.acks| + 1 {
      assert q.acks[..|q.acks| - 1] == p.acks;
    }
  }

  /**
    A batch yields one acknowledgement a record, in order, and the ledger grows by exactly the
    committed ones: their sequence numbers continue the head without a gap, and each names its event.
   */
  lemma {:induction false} BatchAccountsForTheLedger(db: Db, batch: InputBatch, actor: Id, draws: seq<Draw>, n: nat)
    requires StoreSound(db) && AllReplay(db) && n <= |batch.records| == |draws|
    ensures var (after, p) := ProcessRecords(db, batch, actor, draws, n);
            && AccountsFor(CommittedOnly(p.acks), Ledger(db, batch.twin), Ledger(after, batch.twin))
            && (p.raised.None? ==> |p.acks| == n && forall i :: 0 <= i < n ==> p.acks[i].recordId == batch.records[i].recordId)
  {
    hide StoreSound, AllReplay, ProcessOne, AccountsFor, CommittedOnly;
    if n > 0 {
      BatchAccountsForTheLedger(db, batch, actor, draws, n - 1);
      BatchKeepsSound(db, batch, actor, draws, n - 1);
      var (before, p) := ProcessRecords(db, batch, actor, draws, n - 1);
      var (after, q) := ProcessRecords(db, batch, actor, draws, n);
      OneRecord(before, p, batch, batch.records[n - 1], actor, draws[n - 1]);
      AccountsForOneMore(db, before, p, after, q, batch, batch.records[n - 1]);
    } else {
      NothingToAccountFor(Ledger(db, batch.twin));
    }
  }

  // ---------------------------------------------------------------- running a batch again

  /** The identifier of the new event plays no part in the comparisons below. */
  function SameBut(batch: InputBatch, r: InputRecord, actor: Id): Request {
    RequestFor(batch, r, actor, NO_ID)
  }

  predicate MayServe(batch: InputBatch, s: Facts) {
    s.subject.Some? ==> s.subject.value == batch.subject
  }

  /** Away from the head nothing is previewed: the store answers from the key alone. */
  function AnswerFromKey(events: seq<Event>, p: Progress, batch: InputBatch, r: InputRecord, actor: Id): Progress {
    var held := FindKey(events, KeyOf(batch, r));
    if !ValidEvent(Envelope(SameBut(batch, r, actor), 0)) then Acknowledged(p, Rejected(r.recordId, false))
    else if held.None? then Acknowledged(p.(blocked := true), Rejected(r.recordId, true))
    else if SameRequest(held.value.req, SameBut(batch, r, actor)) then
      Acknowledged(p.(expected := if p.expected < held.value.seqNo then held.value.seqNo else p.expected),
                   Duplicate(r.recordId, held.value.req.eventId, held.value.seqNo))
    else Acknowledged(p, Rejected(r.recordId, false))
  }

  lemma Unpreviewed(db: Db, p: Progress, batch: InputBatch, r: InputRecord, actor: Id, d: Draw)
    requires StoreSound(db) && FoldAll(batch.twin, Ledger(db, batch.twin)).Ok?
    requires MayServe(batch, FoldAll(batch.twin, Ledger(db, batch.twin)).value.facts)
    requires p.raised.None? && !p.blocked && ValidRecord(r) && p.expected != |Ledger(db, batch.twin)|
    ensures ProcessOne(db, p, batch, r, actor, d) == (db, AnswerFromKey(Ledger(db, batch.twin), p, batch, r, actor))
  {
    hide FoldAll, StoreSound;
    LedgerIsSound(db, batch.twin);
  }

  lemma SamePreview(db: Db, a: Request, b: Request, t: int, u: int)
    requires b == a.(eventId := b.eventId)
    ensures Preview(db, a, t) == Preview(db, b, u)
    ensures ValidEvent(Envelope(a, 0)) <==> ValidEvent(Envelope(b, 0))
  {
    hide Apply, FoldAll;
    if FoldAll(a.twin, Ledger(db, a.twin)).Ok? {
      SealIrrelevant(FoldAll(a.twin, Ledger(db, a.twin)).value, NextEvent(db, a, t), NextEvent(db, b, u));
    }
  }

  lemma SameAppend(db: Db, a: Request, b: Request, expected: int, now: int, later: int)
    requires b == a.(eventId := b.eventId)
    requires AppendTo(db, a, expected, now).0 == db && AppendTo(db, a, expected, now).1 != Err(UniqueConstraint)
    ensures AppendTo(db, b, expected, later) == AppendTo(db, a, expected, now)
  {
    hide IndexOf;
    assert |Ledger(CommitEvent(db, NextEvent(db, a, now)), a.twin)| == |Ledger(db, a.twin)| + 1;
  }

  lemma SameIngest(db: Db, batch: InputBatch, r: InputRecord, actor: Id, expected: int, d: Draw, e: Draw)
    requires Ingest(db, batch, r, actor, expected, d).0 == db
    requires Ingest(db, batch, r, actor, expected, d).1 != Err(UniqueConstraint)
    ensures Ingest(db, batch, r, actor, expected, e) == Ingest(db, batch, r, actor, expected, d)
  {
    hide FoldAll, ValidEvent, Preview, AppendTo;
    var a, b := RequestFor(batch, r, actor, d.eventId), RequestFor(batch, r, actor, e.eventId);
    SamePreview(db, a, b, d.previewAt, e.previewAt);
    if AppendTo(db, a, expected, d.now).0 == db && AppendTo(db, a, expected, d.now).1 != Err(UniqueConstraint) {
      SameAppend(db, a, b, expected, d.now, e.now);
    }
  }

  /** The step from q to u adds the acknowledgement that the step from p to t added. */
  predicate Repeats(p: Progress, t: Progress, q: Progress, u: Progress, r: InputRecord) {
    && OneMore(p, t, r) && !t.acks[|p.acks|].Committed?
    && u == Progress(t.expected, t.blocked, q.acks + [t.acks[|p.acks|]], None)
  }

  lemma SettleAnswers(p: Progress, head: nat, r: InputRecord, answer: Result<Event>)
    requires Settle(p, head, r, answer).raised.None?
    ensures answer != Err(UniqueConstraint)
  {}

  lemma SettledAgain(p: Progress, q: Progress, head: nat, r: InputRecord, answer: Result<Event>)
    requires q.expected == p.expected && q.blocked == p.blocked && q.raised.None? && p.raised.None?
    requires Settle(p, head, r, answer).raised.None? && OneMore(p, Settle(p, head, r, answer), r)
    requires !Settle(p, head, r, answer).acks[|p.acks|].Committed?
    ensures Repeats(p, Settle(p, head, r, answer), q, Settle(q, head, r, answer), r)
  {}

  /** At an unchanged ledger, a record that committed nothing is answered in the same way again. */
  lemma SameAnswer(db: Db, p: Progress, q: Progress, batch: InputBatch, r: InputRecord, actor: Id, d: Draw, e: Draw)
    requires StoreSound(db) && AllReplay(db)
    requires q.expected == p.expected && q.blocked == p.blocked && q.raised.None? && p.raised.None?
    requires ProcessOne(db, p, batch, r, actor, d).0 == db && ProcessOne(db, p, batch, r, actor, d).1.raised.None?
    ensures ProcessOne(db, q, batch, r, actor, e).0 == db
    ensures Repeats(p, ProcessOne(db, p, batch, r, actor, d).1, q, ProcessOne(db, q, batch, r, actor, e).1, r)
  {
    OneRecord(db, p, batch, r, actor, d);
    hide FoldAll, StoreSound, AllReplay, Ingest, ValidRecord, Ledger, Accounted, Settle;
    if !p.blocked && ValidRecord(r) {
      SettleAnswers(p, |Ledger(db, batch.twin)|, r, Ingest(db, batch, r, actor, p.expected, d).1);
      SameIngest(db, batch, r, actor, p.expected, d, e);
      SettledAgain(p, q, |Ledger(db, batch.twin)|, r, Ingest(db, batch, r, actor, p.expected, d).1);
    }
  }

  // From here on, a run of the batch is compared at two points: after n and after m of its records.

  /** Every event that the later ledger adds carries the key of a record processed in between. */
  predicate KeysFrom(events: seq<Event>, more: seq<Event>, batch: InputBatch, n: nat, m: nat)
    requires m <= |batch.records|
  {
    forall k :: |events| <= k < |more| ==> exists j :: n <= j < m && KeyOf(batch, batch.records[j]) == more[k].req.key
  }

  ghost predicate Later(a: Db, p: Progress, b: Db, q: Progress, batch: InputBatch, n: nat, m: nat)
    requires n <= m <= |batch.records|
  {
    var events, more := Ledger(a, batch.twin), Ledger(b, batch.twin);
    && p.raised.None? && q.raised.None? && p.acks <= q.acks && |p.acks| == n && |q.acks| == m
    && p.expected <= q.expected && (p.blocked ==> q.blocked)
    && events <= more && KeysFrom(events, more, batch, n, m)
    && (a != b ==> !p.blocked && p.expected <= |events| < |more|)
    && (a != b <==> exists j :: n <= j < m && q.acks[j].Committed?)
  }

  lemma LaterByOne(a: Db, p: Progress, b: Db, q: Progress, c: Db, t: Progress, batch: InputBatch, n: nat, m: nat)
    requires n <= m < |batch.records| && t.raised.None?
    requires q.raised.None? ==> Later(a, p, b, q, batch, n, m)
    requires Accounted(b, q, c, t, batch, batch.records[m])
    ensures Later(a, p, c, t, batch, n, m + 1)
  {
    hide Ledger, ValidRecord;
    assert t.acks[m].Committed? <==> c != b;
    assert forall j :: n <= j < m ==> t.acks[j] == q.acks[j];
  }

  lemma LaterAtOnce(a: Db, p: Progress, batch: InputBatch, n: nat)
    requires n <= |batch.records| && p.raised.None? && |p.acks| == n
    ensures Later(a, p, a, p, batch, n, n)
  {}

  lemma {:induction false} LaterInARun(db: Db, batch: InputBatch, actor: Id, draws: seq<Draw>, n: nat, m: nat)
    requires StoreSound(db) && AllReplay(db) && n <= m <= |batch.records| == |draws|
    requires ProcessRecords(db, batch, actor, draws, m).1.raised.None?
    ensures var (a, p) := ProcessRecords(db, batch, actor, draws, n); var (b, q) := ProcessRecords(db, batch, actor, draws, m);
            Later(a, p, b, q, batch, n, m)
  {
    hide StoreSound, AllReplay, ProcessOne, Accounted, Later;
    var (a, p) := ProcessRecords(db, batch, actor, draws, n);
    if n == m {
      BatchAccountsForTheLedger(db, batch, actor, draws, n);
      LaterAtOnce(a, p, batch, n);
    } else {
      BatchKeepsSound(db, batch, actor, draws, m - 1);
      var (b, q) := ProcessRecords(db, batch, actor, draws, m - 1);
      var (c, t) := ProcessRecords(db, batch, actor, draws, m);
      OneRecord(b, q, batch, batch.records[m - 1], actor, draws[m - 1]);
      if q.raised.None? {
        LaterInARun(db, batch, actor, draws, n, m - 1);
      }
      LaterByOne(a, p, b, q, c, t, batch, n, m - 1);
    }
  }

  lemma IngestBinds(s: Twin, e: Event)
    requires e.req.payload.EvidenceIngested? && Apply(s, e).error.None?
    ensures Apply(s, e).state.facts.subject == Some(e.req.payload.evidenceBody.subject)
  {
    hide ValidEvent;
  }

  /** A record that commits binds the twin to the subject of the batch. */
  lemma CommitBinds(db: Db, p: Progress, batch: InputBatch, r: InputRecord, actor: Id, d: Draw)
    requires StoreSound(db) && AllReplay(db) && ProcessOne(db, p, batch, r, actor, d).0 != db
    ensures var events := Ledger(ProcessOne(db, p, batch, r, actor, d).0, batch.twin);
            FoldAll(batch.twin, events).Ok? && FoldAll(batch.twin, events).value.facts.subject == Some(batch.subject)
  {
    hide FoldAll, StoreSound, ValidEvent, Apply, IndexOf;
    var req := RequestFor(batch, r, actor, d.eventId);
    LedgerReplays(db, batch.twin);
    PersistedFollowsPreview(db, req, d.previewAt, d.now);
    IngestBinds(FoldAll(batch.twin, Ledger(db, batch.twin)).value, NextEvent(db, req, d.now));
  }

  lemma {:induction false} CommitsBind(db: Db, batch: InputBatch, actor: Id, draws: seq<Draw>, n: nat, m: nat)
    requires StoreSound(db) && AllReplay(db) && n <= m <= |batch.records| == |draws|
    requires ProcessRecords(db, batch, actor, draws, n).0 != ProcessRecords(db, batch, actor, draws, m).0
    ensures var events := Ledger(ProcessRecords(db, batch, actor, draws, m).0, batch.twin);
            FoldAll(batch.twin, events).Ok? && FoldAll(batch.twin, events).value.facts.subject == Some(batch.subject)
  {
    hide StoreSound, AllReplay, ProcessOne, FoldAll;
    BatchKeepsSound(db, batch, actor, draws, m - 1);
    var (b, q) := ProcessRecords(db, batch, actor, draws, m - 1);
    if ProcessRecords(db, batch, actor, draws, m).0 == b {
      CommitsBind(db, batch, actor, draws, n, m - 1);
    } else {
      CommitBinds(b, q, batch, batch.records[m - 1], actor, draws[m - 1]);
    }
  }

  /** What a twin may serve at the end of a ledger, it may serve at every earlier point. */
  lemma MayServeBefore(batch: InputBatch, events: seq<Event>, more: seq<Event>)
    requires events <= more && FoldAll(batch.twin, more).Ok?
    requires MayServe(batch, FoldAll(batch.twin, more).value.facts)
    ensures FoldAll(batch.twin, events).Ok? && MayServe(batch, FoldAll(batch.twin, events).value.facts)
  {
    hide ReplayStep;
    PrefixReplays(EmptyTwin(batch.twin), more, |events|);
    FoldSplit(EmptyTwin(batch.twin), events, more[|events|..]);
    assert events + more[|events|..] == more;
    if FoldAll(batch.twin, events).value.facts.subject.Some? {
      SubjectStays(FoldAll(batch.twin, events).value, more[|events|..]);
    }
  }

  /** The request itself is sound and its key is free or its own: only a preview can refuse it. */
  predicate AnswersToKey(events: seq<Event>, batch: InputBatch, r: InputRecord, actor: Id) {
    && ValidRecord(r) && ValidEvent(Envelope(SameBut(batch, r, actor), 0))
    && (FindKey(events, KeyOf(batch, r)).Some? ==> SameRequest(FindKey(events, KeyOf(batch, r)).value.req, SameBut(batch, r, actor)))
  }

  /** How a first answer relates to the key, on a twin that may serve the batch. */
  ghost predicate FirstAnswered(db: Db, p: Progress, after: Db, q: Progress, batch: InputBatch, r: InputRecord, actor: Id) {
    var events, more := Ledger(db, batch.twin), Ledger(after, batch.twin);
    |q.acks| == |p.acks| + 1 && p.acks <= q.acks &&
    match q.acks[|p.acks|]
    case Committed(id, eventId, seqNo) =>
      && AnswersToKey(events, batch, r, actor) && FindKey(events, KeyOf(batch, r)).None? && FindKey(more, KeyOf(batch, r)).Some?
      && var e := FindKey(more, KeyOf(batch, r)).value;
         && SameRequest(e.req, SameBut(batch, r, actor))
         && id == r.recordId && eventId == e.req.eventId && seqNo == e.seqNo == q.expected > p.expected
    case Duplicate(_, _, _) =>
      && AnswersToKey(events, batch, r, actor) && FindKey(events, KeyOf(batch, r)).Some?
      && q == AnswerFromKey(events, p, batch, r, actor)
    case Rejected(id, retryable) =>
      && id == r.recordId && !retryable && q.expected == p.expected
      && (AnswersToKey(events, batch, r, actor) ==> p.expected == |events|)
  }

  lemma {:induction false} NewKeyIsFound(events: seq<Event>, e: Event, key: Key)
    ensures FindKey(events, key).None? && e.req.key == key ==> FindKey(events + [e], key) == Some(e)
  {
    if events != [] {
      NewKeyIsFound(events[1..], e, key);
      assert (events + [e])[1..] == events[1..] + [e];
    }
  }

  lemma FirstAnswer(db: Db, p: Progress, batch: InputBatch, r: InputRecord, actor: Id, d: Draw)
    requires StoreSound(db) && AllReplay(db) && p.raised.None? && !p.blocked && ValidRecord(r)
    requires MayServe(batch, FoldAll(batch.twin, Ledger(db, batch.twin)).value.facts)
    requires var q := ProcessOne(db, p, batch, r, actor, d).1; q.raised.None? && !q.blocked
    ensures var (after, q) := ProcessOne(db, p, batch, r, actor, d); FirstAnswered(db, p, after, q, batch, r, actor)
  {
    hide FoldAll, StoreSound, AllReplay, ValidRecord, ValidEvent, Preview, IndexOf;
    var events := Ledger(db, batch.twin);
    LedgerIsSound(db, batch.twin);
    LedgerReplays(db, batch.twin);
    if p.expected != |events| {
      Unpreviewed(db, p, batch, r, actor, d);
    } else {
      var req := RequestFor(batch, r, actor, d.eventId);
      SamePreview(db, req, SameBut(batch, r, actor), d.previewAt, d.previewAt);
      NewKeyIsFound(events, NextEvent(db, req, d.now), KeyOf(batch, r));
    }
  }

  lemma {:induction false} FoundIsFoundLater(events: seq<Event>, more: seq<Event>, key: Key)
    requires events <= more && FindKey(events, key).Some?
    ensures FindKey(more, key) == FindKey(events, key)
  {
    if events[0].req.key != key {
      FoundIsFoundLater(events[1..], more[1..], key);
    }
  }

  lemma NotFoundLater(events: seq<Event>, more: seq<Event>, key: Key)
    requires events <= more && FindKey(events, key).None?
    requires forall k :: |events| <= k < |more| ==> more[k].req.key != key
    ensures FindKey(more, key).None?
  {}

  function Again(ack: Ack): Ack {
    if ack.Committed? then Duplicate(ack.recordId, ack.eventId, ack.seqNo) else ack
  }

  function AllAgain(acks: seq<Ack>): seq<Ack> {
    seq(|acks|, i requires 0 <= i < |acks| => Again(acks[i]))
  }

  /** The second run stands where the first one stood after as many records. */
  predicate Tracks(p: Progress, q: Progress) {
    q.raised.None? && q.expected == p.expected && q.blocked == p.blocked && |q.acks| == |p.acks|
  }

  /** How the second run, from q to u, answers the record that took the first one from p to t. */
  predicate Answered(t: Progress, q: Progress, u: Progress, spoiled: bool) {
    && u.raised.None? && |u.acks| == |q.acks| + 1 == |t.acks| && q.acks <= u.acks
    && (u.acks[|q.acks|] == Again(t.acks[|q.acks|]) <==> !spoiled)
    && (Tracks(t, u) || (u.blocked && spoiled))
  }

  /** Before the last commit, the second run is not at the head, so the keys decide. */
  lemma AnsweredByKey(a: Db, p: Progress, c: Db, t: Progress, q: Progress, batch: InputBatch, r: InputRecord, actor: Id,
                      more: seq<Event>)
    requires FirstAnswered(a, p, c, t, batch, r, actor) && Tracks(p, q) && !p.blocked && !t.blocked && ValidRecord(r)
    requires Numbered(Ledger(a, batch.twin)) && Ledger(a, batch.twin) <= Ledger(c, batch.twin) <= more
    requires t.acks[|p.acks|].Rejected? ==>
      forall k :: |Ledger(a, batch.twin)| <= k < |more| ==> more[k].req.key != KeyOf(batch, r)
    ensures Answered(t, q, AnswerFromKey(more, q, batch, r, actor),
                     t.acks[|p.acks|].Rejected? && AnswersToKey(more, batch, r, actor))
  {
    hide Ledger, ValidRecord, ValidEvent, SameRequest, SameBut;
    var events := Ledger(a, batch.twin);
    if FindKey(events, KeyOf(batch, r)).Some? {
      FoundIsFoundLater(events, more, KeyOf(batch, r));
      var k :| 0 <= k < |events| && events[k] == FindKey(events, KeyOf(batch, r)).value;
    } else if t.acks[|p.acks|].Rejected? {
      NotFoundLater(events, more, KeyOf(batch, r));
    }
    if FindKey(Ledger(c, batch.twin), KeyOf(batch, r)).Some? {
      FoundIsFoundLater(Ledger(c, batch.twin), more, KeyOf(batch, r));
    }
  }

  /** A record that is invalid is rejected without a look at the store, each time. */
  lemma InvalidAgain(a: Db, p: Progress, b: Db, q: Progress, batch: InputBatch, r: InputRecord, actor: Id, d: Draw, e: Draw)
    requires !ValidRecord(r) && Tracks(p, q) && p.raised.None? && !p.blocked
    ensures ProcessOne(a, p, batch, r, actor, d).0 == a && ProcessOne(b, q, batch, r, actor, e).0 == b
    ensures Answered(ProcessOne(a, p, batch, r, actor, d).1, q, ProcessOne(b, q, batch, r, actor, e).1, false)
    ensures !AnswersToKey(Ledger(b, batch.twin), batch, r, actor)
  {
    hide Ingest, Settle, ValidRecord;
  }

  /** What it means that a later record will commit: the first run is open, and behind the final head. */
  lemma BeforeLastCommit(a: Db, p: Progress, c: Db, t: Progress, b: Db, z: Progress, batch: InputBatch, n: nat)
    requires n < |batch.records| && a != b && ValidHeader(batch)
    requires Accounted(a, p, c, t, batch, batch.records[n])
    requires Later(a, p, b, z, batch, n, |batch.records|) && Later(c, t, b, z, batch, n + 1, |batch.records|)
    ensures p.raised.None? && !p.blocked && t.raised.None? && !t.blocked
    ensures |p.acks| == n && |t.acks| == n + 1 <= |z.acks| && z.acks[n] == t.acks[n]
    ensures var events, middle, more := Ledger(a, batch.twin), Ledger(c, batch.twin), Ledger(b, batch.twin);
            && p.expected <= |events| < |more| && events <= middle <= more
            && (t.acks[n].Rejected? ==> forall k :: |events| <= k < |more| ==> more[k].req.key != KeyOf(batch, batch.records[n]))
  {
    hide Ledger, ValidRecord;
  }

  lemma RerunBeforeLastCommit(a: Db, p: Progress, b: Db, z: Progress, q: Progress, batch: InputBatch, n: nat, actor: Id,
                              d: Draw, e: Draw)
    requires StoreSound(a) && AllReplay(a) && StoreSound(b) && AllReplay(b) && ValidHeader(batch)
    requires n < |batch.records| && a != b && Tracks(p, q)
    requires var (c, t) := ProcessOne(a, p, batch, batch.records[n], actor, d);
             Later(a, p, b, z, batch, n, |batch.records|) && Later(c, t, b, z, batch, n + 1, |batch.records|)
    requires FoldAll(batch.twin, Ledger(b, batch.twin)).value.facts.subject == Some(batch.subject)
    ensures ProcessOne(b, q, batch, batch.records[n], actor, e).0 == b
    ensures Answered(ProcessOne(a, p, batch, batch.records[n], actor, d).1, q,
                     ProcessOne(b, q, batch, batch.records[n], actor, e).1,
                     z.acks[n].Rejected? && AnswersToKey(Ledger(b, batch.twin), batch, batch.records[n], actor))
  {
    var r := batch.records[n];
    var (c, t) := ProcessOne(a, p, batch, r, actor, d);
    hide StoreSound, AllReplay, FoldAll, ProcessOne, AnswersToKey, AnswerFromKey, Answered, FirstAnswered, ValidRecord,
         Accounted, Later, IsChain;
    OneRecord(a, p, batch, r, actor, d);
    BeforeLastCommit(a, p, c, t, b, z, batch, n);
    if !ValidRecord(r) {
      InvalidAgain(a, p, b, q, batch, r, actor, d, e);
    } else {
      LedgerIsSound(a, batch.twin);
      LedgerReplays(b, batch.twin);
      MayServeBefore(batch, Ledger(a, batch.twin), Ledger(b, batch.twin));
      FirstAnswer(a, p, batch, r, actor, d);
      Unpreviewed(b, q, batch, r, actor, e);
      AnsweredByKey(a, p, c, t, q, batch, r, actor, Ledger(b, batch.twin));
    }
  }

  lemma RerunAtTheHead(a: Db, p: Progress, z: Progress, q: Progress, batch: InputBatch, n: nat, actor: Id, d: Draw, e: Draw)
    requires StoreSound(a) && AllReplay(a) && n < |batch.records| && Tracks(p, q)
    requires var (c, t) := ProcessOne(a, p, batch, batch.records[n], actor, d);
             Later(a, p, a, z, batch, n, |batch.records|) && Later(c, t, a, z, batch, n + 1, |batch.records|)
    ensures ProcessOne(a, q, batch, batch.records[n], actor, e).0 == a
    ensures Answered(ProcessOne(a, p, batch, batch.records[n], actor, d).1, q,
                     ProcessOne(a, q, batch, batch.records[n], actor, e).1, false)
  {
    var r := batch.records[n];
    var (c, t) := ProcessOne(a, p, batch, r, actor, d);
    OneRecord(a, p, batch, r, actor, d);
    hide StoreSound, AllReplay, ProcessOne, Ledger, ValidRecord;
    assert c == a;
    SameAnswer(a, p, q, batch, r, actor, d, e);
  }

  /** Rejected, though only a preview can have refused it, and followed by a commit. */
  predicate Spoiled(acks: seq<Ack>, i: nat, events: seq<Event>, batch: InputBatch, actor: Id)
    requires i < |acks| == |batch.records|
  {
    && acks[i].Rejected? && AnswersToKey(events, batch, batch.records[i], actor)
    && exists j :: i < j < |acks| && acks[j].Committed?
  }

  /** The state of the second run after n records. */
  ghost predicate Rerunning(z: Progress, p: Progress, u: Progress, events: seq<Event>, batch: InputBatch, actor: Id, n: nat)
    requires n <= |z.acks| == |batch.records|
  {
    && u.raised.None? && |u.acks| == n
    && (u.acks == AllAgain(z.acks[..n]) <==> forall i :: 0 <= i < n ==> !Spoiled(z.acks, i, events, batch, actor))
    && (Tracks(p, u) || (u.blocked && exists i :: 0 <= i < n && Spoiled(z.acks, i, events, batch, actor)))
  }

  lemma RerunningOn(z: Progress, p: Progress, t: Progress, q: Progress, u: Progress, events: seq<Event>, batch: InputBatch,
                    actor: Id, n: nat)
    requires n < |z.acks| == |batch.records| && Rerunning(z, p, q, events, batch, actor, n)
    requires |t.acks| == n + 1 && t.acks <= z.acks
    requires if Tracks(p, q) then Answered(t, q, u, Spoiled(z.acks, n, events, batch, actor))
             else u == Acknowledged(q, Rejected(batch.records[n].recordId, true))
    ensures Rerunning(z, t, u, events, batch, actor, n + 1)
  {
    hide Spoiled;
    assert u.acks[..n] == q.acks;
    assert AllAgain(z.acks[..n + 1]) == AllAgain(z.acks[..n]) + [Again(z.acks[n])];
    assert u.acks == q.acks + [u.acks[n]];
    assert u.acks == AllAgain(z.acks[..n + 1]) <==> q.acks == AllAgain(z.acks[..n]) && u.acks[n] == Again(z.acks[n]);
  }

  lemma TracksOrBlocked(z: Progress, p: Progress, u: Progress, events: seq<Event>, batch: InputBatch, actor: Id, n: nat)
    requires n <= |z.acks| == |batch.records| && Rerunning(z, p, u, events, batch, actor, n)
    ensures Tracks(p, u) || (u.raised.None? && u.blocked)
  {}

  lemma RerunStarts(z: Progress, events: seq<Event>, batch: InputBatch, actor: Id)
    requires |z.acks| == |batch.records|
    ensures Rerunning(z, Start(batch), Start(batch), events, batch, actor, 0)
  {}

  lemma BlockedAgain(b: Db, q: Progress, batch: InputBatch, r: InputRecord, actor: Id, e: Draw)
    requires q.raised.None? && q.blocked
    ensures ProcessOne(b, q, batch, r, actor, e) == (b, Acknowledged(q, Rejected(r.recordId, true)))
  {
    hide Ingest, Settle, ValidRecord;
  }

  /** A rejection is spoiled by a later commit, and the ledger tells whether there is one. */
  lemma SpoiledIffBehind(a: Db, p: Progress, b: Db, z: Progress, batch: InputBatch, actor: Id, n: nat)
    requires n < |batch.records| && Later(a, p, b, z, batch, n, |batch.records|)
    ensures Spoiled(z.acks, n, Ledger(b, batch.twin), batch, actor)
       <==> a != b && z.acks[n].Rejected? && AnswersToKey(Ledger(b, batch.twin), batch, batch.records[n], actor)
  {
    hide Ledger, AnswersToKey;
  }

  lemma LaterIsLonger(a: Db, p: Progress, b: Db, z: Progress, batch: InputBatch, n: nat)
    requires n <= |batch.records| && Later(a, p, b, z, batch, n, |batch.records|)
    ensures |p.acks| == n && p.acks <= z.acks
  {}

  /** One record of the second run, from a state that the induction reaches. */
  lemma RerunRecord(db: Db, batch: InputBatch, actor: Id, draws: seq<Draw>, n: nat, q: Progress, e: Draw)
    requires StoreSound(db) && AllReplay(db) && ValidHeader(batch) && n < |batch.records| == |draws|
    requires ProcessRecords(db, batch, actor, draws, |draws|).1.raised.None?
    requires |ProcessRecords(db, batch, actor, draws, |draws|).1.acks| == |draws|
    requires Tracks(ProcessRecords(db, batch, actor, draws, n).1, q) || (q.raised.None? && q.blocked)
    ensures var (b, z) := ProcessRecords(db, batch, actor, draws, |draws|);
            var p, t := ProcessRecords(db, batch, actor, draws, n).1, ProcessRecords(db, batch, actor, draws, n + 1).1;
            var (after, u) := ProcessOne(b, q, batch, batch.records[n], actor, e);
            && after == b && |t.acks| == n + 1 && t.acks <= z.acks
            && if Tracks(p, q) then Answered(t, q, u, Spoiled(z.acks, n, Ledger(b, batch.twin), batch, actor))
               else u == Acknowledged(q, Rejected(batch.records[n].recordId, true))
  {
    var m := |draws|;
    var (b, z) := ProcessRecords(db, batch, actor, draws, m);
    var (a, p) := ProcessRecords(db, batch, actor, draws, n);
    hide StoreSound, AllReplay, FoldAll, ProcessOne, Answered, AnswersToKey, Later, Spoiled, Ledger, Accounted;
    LaterInARun(db, batch, actor, draws, n, m);
    LaterInARun(db, batch, actor, draws, n + 1, m);
    LaterIsLonger(ProcessRecords(db, batch, actor, draws, n + 1).0, ProcessRecords(db, batch, actor, draws, n + 1).1,
                  b, z, batch, n + 1);
    BatchKeepsSound(db, batch, actor, draws, n);
    BatchKeepsSound(db, batch, actor, draws, m);
    SpoiledIffBehind(a, p, b, z, batch, actor, n);
    if !Tracks(p, q) {
      BlockedAgain(b, q, batch, batch.records[n], actor, e);
    } else if a == b {
      RerunAtTheHead(a, p, z, q, batch, n, actor, draws[n], e);
    } else {
      CommitsBind(db, batch, actor, draws, n, m);
      RerunBeforeLastCommit(a, p, b, z, q, batch, n, actor, draws[n], e);
    }
  }

  lemma {:induction false} RerunFrom(db: Db, batch: InputBatch, actor: Id, draws: seq<Draw>, again: seq<Draw>, n: nat)
    requires StoreSound(db) && AllReplay(db) && ValidHeader(batch) && n <= |batch.records| == |draws| == |again|
    requires ProcessRecords(db, batch, actor, draws, |draws|).1.raised.None?
    ensures var (b, z) := ProcessRecords(db, batch, actor, draws, |draws|);
            var p, (after, u) := ProcessRecords(db, batch, actor, draws, n).1, ProcessRecords(b, batch, actor, again, n);
            after == b && |z.acks| == |draws| && Rerunning(z, p, u, Ledger(b, batch.twin), batch, actor, n)
  {
    hide StoreSound, AllReplay, FoldAll, ProcessOne, Spoiled, Ledger, Later, Rerunning, Answered;
    var m := |draws|;
    var (b, z) := ProcessRecords(db, batch, actor, draws, m);
    BatchAccountsForTheLedger(db, batch, actor, draws, m);
    if n == 0 {
      RerunStarts(z, Ledger(b, batch.twin), batch, actor);
    } else {
      RerunFrom(db, batch, actor, draws, again, n - 1);
      var (a, p) := ProcessRecords(db, batch, actor, draws, n - 1);
      var (c, t) := ProcessRecords(db, batch, actor, draws, n);
      var q := ProcessRecords(b, batch, actor, again, n - 1).1;
      TracksOrBlocked(z, p, q, Ledger(b, batch.twin), batch, actor, n - 1);
      RerunRecord(db, batch, actor, draws, n - 1, q, again[n - 1]);
      RerunningOn(z, p, t, q, ProcessRecords(b, batch, actor, again, n).1, Ledger(b, batch.twin), batch, actor, n - 1);
    }
  }

  /**
    Running a batch again, whatever the clock and the new identifiers, appends nothing. Each committed
    record becomes a duplicate with the same event and number, and each other answer stays what it
    was, exactly if no record was rejected by the preview alone and then followed by a commit.
   */
  lemma RerunIsIdempotent(db: Db, batch: InputBatch, actor: Id, draws: seq<Draw>, again: seq<Draw>)
    requires StoreSound(db) && AllReplay(db) && ValidHeader(batch) && |batch.records| == |draws| == |again|
    requires ProcessRecords(db, batch, actor, draws, |draws|).1.raised.None?
    ensures var (b, z) := ProcessRecords(db, batch, actor, draws, |draws|);
            var (after, u) := ProcessRecords(b, batch, actor, again, |again|);
            && after == b && u.raised.None? && |z.acks| == |batch.records|
            && (u.acks == AllAgain(z.acks)
                <==> forall i :: 0 <= i < |z.acks| ==> !Spoiled(z.acks, i, Ledger(b, batch.twin), batch, actor))
  {
    hide StoreSound, AllReplay, ProcessRecords, Spoiled;
    RerunFrom(db, batch, actor, draws, again, |draws|);
    var z := ProcessRecords(db, batch, actor, draws, |draws|).1;
    assert z.acks[..|draws|] == z.acks;
  }

  /** The preview's verdict on evidence for the subject that the twin is bound to. */
  lemma EvidenceVerdict(db: Db, batch: InputBatch, r: InputRecord, actor: Id, d: Draw)
    requires FoldAll(batch.twin, Ledger(db, batch.twin)).Ok? && ValidEvent(Envelope(SameBut(batch, r, actor), 0))
    requires FoldAll(batch.twin, Ledger(db, batch.twin)).value.facts.subject == Some(batch.subject)
    ensures Preview(db, RequestFor(batch, r, actor, d.eventId), d.previewAt)
         == if r.evidence in FoldAll(batch.twin, Ledger(db, batch.twin)).value.facts.evidence
            then Some(InvariantViolation) else None
  {
    hide FoldAll;
  }

  /**
    The exception happens: a record whose evidence is already present under another key is rejected
    by the preview, the next record commits, and on the second run the first one meets a conflict.
   */
  lemma RejectionThenCommitSpoils(db: Db, batch: InputBatch, actor: Id, draws: seq<Draw>)
    requires StoreSound(db) && AllReplay(db) && |batch.records| == |draws| == 2 && batch.expected == |Ledger(db, batch.twin)|
    requires forall r :: r in batch.records ==>
      && ValidRecord(r) && ValidEvent(Envelope(SameBut(batch, r, actor), 0)) && FindKey(Ledger(db, batch.twin), KeyOf(batch, r)).None?
    requires var facts := FoldAll(batch.twin, Ledger(db, batch.twin)).value.facts;
             && facts.subject == Some(batch.subject)
             && batch.records[0].evidence in facts.evidence && batch.records[1].evidence !in facts.evidence
    requires !EventIdTaken(db, draws[1].eventId) && ValidHeader(batch)
    ensures var (b, z) := ProcessRecords(db, batch, actor, draws, 2);
            && z.raised.None? && |z.acks| == 2 && z.acks[0].Rejected? && z.acks[1].Committed?
            && Spoiled(z.acks, 0, Ledger(b, batch.twin), batch, actor)
  {
    hide FoldAll, ValidEvent, Preview, StoreSound, AllReplay, ValidRecord, IndexOf;
    var r, s := batch.records[0], batch.records[1];
    LedgerReplays(db, batch.twin);
    EvidenceVerdict(db, batch, r, actor, draws[0]);
    EvidenceVerdict(db, batch, s, actor, draws[1]);
    SamePreview(db, SameBut(batch, r, actor), RequestFor(batch, r, actor, draws[0].eventId), 0, draws[0].previewAt);
    SamePreview(db, SameBut(batch, s, actor), RequestFor(batch, s, actor, draws[1].eventId), 0, draws[1].previewAt);
    assert Ingest(db, batch, r, actor, batch.expected, draws[0]) == (db, Err(InvariantViolation));
    assert ProcessRecords(db, batch, actor, draws, 0) == (db, Start(batch));
    assert Acknowledged(Start(batch), Rejected(r.recordId, false)).acks == [Rejected(r.recordId, false)];
    assert ProcessRecords(db, batch, actor, draws, 1)
        == (db, Progress(batch.expected, false, [Rejected(r.recordId, false)], None));
    var (b, z) := ProcessRecords(db, batch, actor, draws, 2);
    assert z.acks[1].Committed?;
    assert forall k :: |Ledger(db, batch.twin)| <= k < |Ledger(b, batch.twin)| ==> Ledger(b, batch.twin)[k].req.key == KeyOf(batch, s);
    NotFoundLater(Ledger(db, batch.twin), Ledger(b, batch.twin), KeyOf(batch, r));
  }

  // ---------------------------------------------------------------- the processor

  lemma AppendReadsLedgers(a: Db, b: Db, req: Request, expected: int, now: int)
    requires a.ledgers == b.ledgers
    ensures AppendTo(a, req, expected, now).1 == AppendTo(b, req, expected, now).1
    ensures AppendTo(a, req, expected, now).0.ledgers == AppendTo(b, req, expected, now).0.ledgers
  {
    hide FindKey, IndexOf, SameRequest, Seal;
    assert EventIdTaken(a, req.eventId) == EventIdTaken(b, req.eventId);
  }

  lemma ServiceReadsLedgers(a: Db, b: Db, req: Request, expected: int, previewAt: int, now: int)
    requires a.ledgers == b.ledgers
    ensures ServiceAppend(a, req, 0, expected, previewAt, now).1 == ServiceAppend(b, req, 0, expected, previewAt, now).1
    ensures ServiceAppend(a, req, 0, expected, previewAt, now).0.ledgers
         == ServiceAppend(b, req, 0, expected, previewAt, now).0.ledgers
  {
    hide Preview, AppendTo, ValidEvent;
    SameLedgerSamePreview(a, b, req, previewAt);
    AppendReadsLedgers(a, b, req, expected, now);
  }

  /** The answer to a record depends on the ledgers alone. */
  lemma IngestReadsLedgers(a: Db, b: Db, batch: InputBatch, r: InputRecord, actor: Id, expected: int, d: Draw)
    requires a.ledgers == b.ledgers
    ensures Ingest(a, batch, r, actor, expected, d).1 == Ingest(b, batch, r, actor, expected, d).1
    ensures Ingest(a, batch, r, actor, expected, d).0.ledgers == Ingest(b, batch, r, actor, expected, d).0.ledgers
  {
    hide FoldAll, ServiceAppend;
    ServiceReadsLedgers(a, b, RequestFor(batch, r, actor, d.eventId), expected, d.previewAt, d.now);
  }

  lemma OneReadsLedgers(a: Db, b: Db, p: Progress, batch: InputBatch, r: InputRecord, actor: Id, d: Draw)
    requires a.ledgers == b.ledgers
    ensures ProcessOne(a, p, batch, r, actor, d).1 == ProcessOne(b, p, batch, r, actor, d).1
    ensures ProcessOne(a, p, batch, r, actor, d).0.ledgers == ProcessOne(b, p, batch, r, actor, d).0.ledgers
  {
    hide Ingest, Settle, ValidRecord;
    IngestReadsLedgers(a, b, batch, r, actor, p.expected, d);
  }

  lemma {:induction false} RaisedStays(db: Db, batch: InputBatch, actor: Id, draws: seq<Draw>, n: nat, m: nat)
    requires n <= m <= |batch.records| == |draws|
    requires ProcessRecords(db, batch, actor, draws, n).1.raised.Some?
    ensures ProcessRecords(db, batch, actor, draws, m) == ProcessRecords(db, batch, actor, draws, n)
  {
    hide Ingest, Settle, ValidRecord;
    if n < m {
      RaisedStays(db, batch, actor, draws, n, m - 1);
    }
  }

  class TelemetryBatchProcessor {
    const service: DigitalTwinService

    constructor (service: DigitalTwinService)
      ensures this.service == service
    {
      this.service := service;
    }

    /** Ingest one record through the service, for the subject that its twin is bound to, if it is bound. */
    method IngestEvidence(batch: InputBatch, r: InputRecord, actor: Id, expected: int, d: Draw) returns (answer: Result<Event>)
      requires service.Valid() && service.Trusted()
      modifies service`cache, service`order, service.store, service.cache.Values
      ensures service.Valid() && service.Trusted()
      ensures var (after, a) := Ingest(old(service.store.View()), batch, r, actor, expected, d);
              answer == a && service.store.ledgers == after.ledgers
      ensures forall t :: t in service.cache ==>
        fresh(service.cache[t]) || (t in old(service.cache) && service.cache[t] == old(service.cache)[t])
    {
      hide FoldAll, ServiceAppend, ProcessAppend, HeldAfter, Processes.AllRight, StoreSound, Replay.SnapshotsSound, Within, Refreshed, Latest,
           AppendTo;
      var latest := service.LatestState(batch.twin);
      if latest.Err? {
        return Err(latest.error);
      }
      if latest.value.facts.subject.Some? && latest.value.facts.subject.value != batch.subject {
        return Err(InvariantViolation);
      }
      answer := service.Append(RequestFor(batch, r, actor, d.eventId), 0, expected, d.previewAt, d.now);
    }

    /** One turn of the loop: `p` holds the expected number, the block and the acknowledgements so far. */
    method TakeRecord(p: Progress, batch: InputBatch, r: InputRecord, actor: Id, d: Draw) returns (q: Progress)
      requires service.Valid() && service.Trusted() && p.raised.None?
      modifies service`cache, service`order, service.store, service.cache.Values
      ensures service.Valid() && service.Trusted()
      ensures var (after, t) := ProcessOne(old(service.store.View()), p, batch, r, actor, d);
              q == t && service.store.ledgers == after.ledgers
      ensures forall t :: t in service.cache ==>
        fresh(service.cache[t]) || (t in old(service.cache) && service.cache[t] == old(service.cache)[t])
    {
      hide Ingest, ValidRecord, StoreSound;
      if p.blocked {
        return p.(acks := p.acks + [Rejected(r.recordId, true)]);
      }
      if !ValidRecord(r) {
        return p.(acks := p.acks + [Rejected(r.recordId, false)]);
      }
      var head := service.store.Head(batch.twin).0;
      var answer := IngestEvidence(batch, r, actor, p.expected, d);
      match answer
      case Ok(e) =>
        var ack := Committed(r.recordId, e.req.eventId, e.seqNo);
        if e.seqNo <= head {
          ack := Duplicate(r.recordId, e.req.eventId, e.seqNo);
        }
        q := p.(acks := p.acks + [ack]);
        if q.expected < e.seqNo {
          q := q.(expected := e.seqNo);
        }
      case Err(ConcurrencyConflict) =>
        q := p.(blocked := true, acks := p.acks + [Rejected(r.recordId, true)]);
      case Err(x) =>
        if x.InvariantViolation? || x.InvalidValue? {
          q := p.(acks := p.acks + [Rejected(r.recordId, false)]);
        } else {
          q := p.(raised := Some(x));
        }
    }

    /** Check the header, then take the records one by one; after a conflict the rest is refused unread. */
    method Process(batch: InputBatch, actor: Id, draws: seq<Draw>) returns (r: Result<seq<Ack>>)
      requires service.Valid() && service.Trusted() && |draws| == |batch.records|
      modifies service`cache, service`order, service.store, service.cache.Values
      ensures service.Valid() && service.Trusted()
      ensures !ValidHeader(batch) ==> r == Err(ProtocolViolation) && service.store.ledgers == old(service.store.ledgers)
      ensures ValidHeader(batch) ==>
        var (after, p) := ProcessRecords(old(service.store.View()), batch, actor, draws, |draws|);
        service.store.ledgers == after.ledgers && r == if p.raised.None? then Ok(p.acks) else Err(p.raised.value)
    {
      hide ProcessOne, ValidHeader, StoreSound;
      if !ValidHeader(batch) {
        return Err(ProtocolViolation);
      }
      var p := Start(batch);
      ghost var db := service.store.View();
      for i := 0 to |batch.records|
        invariant service.Valid() && service.Trusted() && service.store.ledgers == db.ledgers && p.raised.None?
        invariant (db, p) == ProcessRecords(old(service.store.View()), batch, actor, draws, i)
        invariant forall t :: t in service.cache ==>
          fresh(service.cache[t]) || service.cache[t] in old(service.cache.Values)
      {
        OneReadsLedgers(db, service.store.View(), p, batch, batch.records[i], actor, draws[i]);
        db := ProcessOne(db, p, batch, batch.records[i], actor, draws[i]).0;
        p := TakeRecord(p, batch, batch.records[i], actor, draws[i]);
        if p.raised.Some? {
          RaisedStays(old(service.store.View()), batch, actor, draws, i + 1, |draws|);
          return Err(p.raised.value);
        }
      }
      return Ok(p.acks);
    }
  }
}
