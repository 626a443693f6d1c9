/** Whether the subject of a job is the event the relay stores under the subject's id. */
module Subjects {
  import opened Text
  import opened Events
  import opened Store
  import opened Lifecycle
  import opened LifecycleRuns
  import opened Clock
  import opened Receipts
  import opened Witnessing
  import opened WitnessingFacts
  import opened Runs
  import opened RunTheorems

  /** An event bears the id of its payload, as validation demands even where signatures are not checked. */
  predicate HasOwnId(c: Crypto, e: Event) {
    e.id == c.idOf(e.Payload())
  }

  /** Stored events, subjects and receipts bear their own ids. */
  ghost predicate IdsOk(c: Crypto, t: Tables) {
    && (forall x :: x in t.events ==> t.events[x].id == x && HasOwnId(c, t.events[x]))
    && (forall d :: d in t.jobs ==> RowIdsOk(c, t.jobs[d]))
  }

  predicate RowIdsOk(c: Crypto, row: JobRow) {
    HasOwnId(c, row.inputs.subject) && (row.receipt.Some? ==> HasOwnId(c, row.receipt.value))
  }

  /** The relay stores this event, or the same event under another signature, or a collision. */
  predicate StoredUpToSignature(c: Crypto, t: Tables, e: Event) {
    && e.id in t.events
    && (t.events[e.id].Unsealed() == e.Unsealed() || IdCollision(c, t.events[e.id].Payload(), e.Payload()))
  }

  lemma SaveKeepsIds(c: Crypto, t: Tables, e: Event, job: Option<Job>, queueLimit: int, completed: Option<string>)
    requires IdsOk(c, t) && HasOwnId(c, e) && (job.Some? ==> job.value.subject == e)
    ensures IdsOk(c, SaveTables(t, e, job, queueLimit, completed))
  {
    hide SaveTables, HasOwnId, PendingJobs;
    SaveJobs(t, e, job, queueLimit, completed);
  }

  lemma StepKeepsIds(c: Crypto, id: Identity, w: World, op: Op)
    requires IdsOk(c, w.tables) && (op.Submit? ==> HasOwnId(c, op.event))
    ensures IdsOk(c, Next(c, id, w, op).tables)
  {
    hide IdsOk, Observe, Decide, SaveTables, UpdateJob, Apply, HasOwnId;
    match op
    case Submit(e, rd, _) =>
      ObservedSubject(c, id, w, e, rd);
      SaveKeepsIds(c, w.tables, e, Observe(c, id, w, e, rd).1, w.settings.queueLimit, None);
    case IssueJob(d, rd, salt, _) =>
      var outcome := Decide(c, id, w, d, rd, salt).1;
      UpdateKeepsIds(c, w.tables, d, true);
      if outcome.Issued? {
        ReceiptHasOwnId(c, id, w, d, rd, salt);
        SaveKeepsIds(c, w.tables, outcome.receipt, None, 1000, Some(d));
      }
    case Mark(d) => UpdateKeepsIds(c, w.tables, d, false);
    case _ =>
  }

  lemma UpdateKeepsIds(c: Crypto, t: Tables, d: string, unavailable: bool)
    requires IdsOk(c, t)
    ensures IdsOk(c, UpdateJob(t, d, unavailable))
  {
    hide HasOwnId;
  }

  lemma ReceiptHasOwnId(c: Crypto, id: Identity, w: World, d: string, rd: Readings, salt: string)
    requires Decide(c, id, w, d, rd, salt).1.Issued?
    ensures HasOwnId(c, Decide(c, id, w, d, rd, salt).1.receipt)
  {
    hide Decide, InForce, JobIsCurrent, ReceiptFor, SignedEventDigest, IsLowerHex, ReceiptTags;
    var r, sample := IssuedInForce(c, id, w, d, rd, salt);
  }

  lemma SealedByOneId(c: Crypto, t: Tables, e: Event)
    requires IdsOk(c, t) && HasOwnId(c, e) && e.id in t.events
    ensures StoredUpToSignature(c, t, e)
  {
    assert c.idOf(t.events[e.id].Payload()) == c.idOf(e.Payload());
  }

  lemma {:induction false} IdsThroughout(c: Crypto, id: Identity, w: World, ops: seq<Op>, n: nat)
    requires IdsOk(c, w.tables) && n <= |ops|
    requires forall op :: op in ops && op.Submit? ==> HasOwnId(c, op.event)
    ensures IdsOk(c, At(c, id, w, ops, n).tables)
  {
    hide IdsOk, Next, HasOwnId;
    if n > 0 {
      IdsThroughout(c, id, w, ops, n - 1);
      StepKeepsIds(c, id, At(c, id, w, ops, n - 1), ops[n - 1]);
    }
  }

  /** At every moment of every run on validated submissions, the relay stores the subject of every job and
      every recorded receipt, up to their signatures, or exhibits a collision. */
  lemma SubjectsThroughout(c: Crypto, id: Identity, w: World, ops: seq<Op>, n: nat)
    requires JobsOk(w.tables) && IdsOk(c, w.tables) && n <= |ops|
    requires forall op :: op in ops && op.Submit? ==> HasOwnId(c, op.event)
    ensures forall d :: d in At(c, id, w, ops, n).tables.jobs ==>
      var row := At(c, id, w, ops, n).tables.jobs[d];
      StoredUpToSignature(c, At(c, id, w, ops, n).tables, row.inputs.subject)
      && (row.receipt.Some? ==> StoredUpToSignature(c, At(c, id, w, ops, n).tables, row.receipt.value))
  {
    hide At, JobsOk, StoredUpToSignature, HasOwnId, JobsEvolve;
    var t := At(c, id, w, ops, n).tables;
    IdsThroughout(c, id, w, ops, n);
    JobsThroughout(c, id, w, ops, n, n);
    forall d | d in t.jobs
      ensures StoredUpToSignature(c, t, t.jobs[d].inputs.subject)
      ensures t.jobs[d].receipt.Some? ==> StoredUpToSignature(c, t, t.jobs[d].receipt.value)
    {
      RowOfJob(t, d);
      assert RowIdsOk(c, t.jobs[d]);
      SealedByOneId(c, t, t.jobs[d].inputs.subject);
      if t.jobs[d].receipt.Some? {
        SealedByOneId(c, t, t.jobs[d].receipt.value);
      }
    }
  }

  // ----- Which signature is stored

  lemma {:induction false} EventsStay(c: Crypto, id: Identity, w: World, ops: seq<Op>, i: nat, j: nat, x: string)
    requires i <= j <= |ops| && x in At(c, id, w, ops, i).tables.events
    ensures x in At(c, id, w, ops, j).tables.events
    ensures At(c, id, w, ops, j).tables.events[x] == At(c, id, w, ops, i).tables.events[x]
    decreases j
  {
    hide Next;
    if i < j {
      EventsStay(c, id, w, ops, i, j - 1, x);
      EventStays(c, id, At(c, id, w, ops, j - 1), ops[j - 1], x);
    }
  }

  lemma EventStays(c: Crypto, id: Identity, w: World, op: Op, x: string)
    requires x in w.tables.events
    ensures x in Next(c, id, w, op).tables.events && Next(c, id, w, op).tables.events[x] == w.tables.events[x]
  {
    hide Observe, Decide, SaveTables, Apply;
    match op
    case Submit(e, rd, _) => SaveJobs(w.tables, e, Observe(c, id, w, e, rd).1, w.settings.queueLimit, None);
    case IssueJob(d, rd, salt, _) =>
      var outcome := Decide(c, id, w, d, rd, salt).1;
      if outcome.Issued? {
        SaveJobs(w.tables, outcome.receipt, None, 1000, Some(d));
      }
    case _ =>
  }

  /** A submission that files a job commits its event in the same transaction, unless the id is taken. */
  lemma FiledWithEvent(c: Crypto, id: Identity, w: World, op: Op, d: string)
    requires op.Submit? && d !in w.tables.jobs && d in Next(c, id, w, op).tables.jobs
    ensures Next(c, id, w, op).tables.events
      == if op.event.id in w.tables.events then w.tables.events else w.tables.events[op.event.id := op.event]
  {
    hide Observe, SaveTables;
    SaveJobs(w.tables, op.event, Observe(c, id, w, op.event, op.rd).1, w.settings.queueLimit, None);
  }

  /** The job of a digest was filed by one submission, and from then on its subject is the very event that is
      stored, signature included, if and only if at that submission the subject's id was absent from the store
      or already held that same event. */
  lemma SubjectIsStoredIff(c: Crypto, id: Identity, w: World, ops: seq<Op>, n: nat, d: string) returns (i: nat)
    requires JobsOk(w.tables) && w.tables.jobs == map[] && n <= |ops|
    requires d in At(c, id, w, ops, n).tables.jobs
    ensures i < n && FiledAt(c, id, w, ops, i, d, At(c, id, w, ops, n).tables.jobs[d].inputs)
    ensures var subject, before := At(c, id, w, ops, n).tables.jobs[d].inputs.subject,
      At(c, id, w, ops, i).tables.events;
      subject.id in At(c, id, w, ops, n).tables.events
      && (At(c, id, w, ops, n).tables.events[subject.id] == subject
          <==> subject.id !in before || before[subject.id] == subject)
  {
    hide Next, Observe, JobsOk;
    i := JobWasFiled(c, id, w, ops, n, d);
    var before := At(c, id, w, ops, i);
    var subject := At(c, id, w, ops, n).tables.jobs[d].inputs.subject;
    ObservedSubject(c, id, before, ops[i].event, ops[i].rd);
    assert At(c, id, w, ops, i + 1) == Next(c, id, before, ops[i]);
    FiledWithEvent(c, id, before, ops[i], d);
    EventsStay(c, id, w, ops, i + 1, n, subject.id);
  }

  // ----- A second signature

  /** The empty database of a new installation. */
  const EMPTY_TABLES := Tables(map[], {}, map[], map[], [])

  const MONITORED := Settings(Bounded, 1000, 60)

  /** A new installation in bounded mode at second `now`. */
  function NewInstallation(now: int): World {
    World(EMPTY_TABLES, UNTOUCHED, ClockState(now as real, 0.0, false), MONITORED, RESTING)
  }

  /** Readings at second `now` on a clock that has not moved. */
  function ReadingsAt(now: int, health: Health): Readings {
    Readings(now, now, now as real, 0.0, health)
  }

  function Healthy(now: int): Health {
    Health(true, Some(now * 1000), Millis(0), "", "", None)
  }

  lemma WholeSeconds(now: int)
    requires 0 <= now
    ensures ToMillis(now as real) == now * 1000
  {
    assert (now as real) * 1000.0 == (now * 1000) as real;
  }

  lemma PolicyHasNoMarker()
    ensures Markers("policy") == {}
  {
    assert Lines("policy") == ["policy"];
  }

  /** The operator signs the template of the pending request at once. */
  function Reply(c: Crypto, l: Ledger, now: int, salt: string): Command
    requires l.current.Requested? && l.current.request.content.RequestContent?
  {
    DoAuthorize(now, SignTemplate(c, l.current.request, now, salt))
  }

  /** A request and the reply to it put a grant in force. */
  lemma GrantInForce(c: Crypto, id: Identity, now: int, nonce: string, salt: string)
    requires Sound(c) && IsLowerHex(id.service, 64) && IsLowerHex(id.operator, 64) && IsLowerHex(nonce, 64) && 0 <= now
    ensures var l := Apply(c, id, UNTOUCHED, HourRequest(now, nonce, salt));
      l.current.Requested? && l.current.request.content.RequestContent?
      && var l' := Apply(c, id, l, Reply(c, l, now, salt));
         ViewOk(c, id, l', now)
         && exists r :: InForce(l', MONITORED, r, now, Sample(now * 1000, Some(0)))
                        && 1415 in r.authorization.content.grant.kinds
  {
    hide Sound, ValidEvent, ViewOk, Authorize, Markers;
    var cmd := HourRequest(now, nonce, salt);
    assert PolicyOk("policy");
    RequestSucceedsIff(c, id, UNTOUCHED, cmd);
    RequestThenAuthorize(c, id, UNTOUCHED, cmd, now, now, salt);
    var l := Attempt(c, id, UNTOUCHED, cmd).value;
    var r := GrantRecord(l.current.request, l.current.policy, SignTemplate(c, l.current.request, now, salt));
    var l' := Authorize(c, id, l, now, r.authorization).value;
    PolicyHasNoMarker();
    assert 1415 in SortedKinds([1415]) by {
      SortedKindsIsSorted([1415]);
    }
    AuthorizedView(c, id, l, now, r.authorization);
    assert InForce(l', MONITORED, r, now, Sample(now * 1000, Some(0)));
  }

  lemma AuthorizedView(c: Crypto, id: Identity, l: Ledger, now: int, e: Event)
    requires Authorize(c, id, l, now, e).Some?
    ensures ViewOk(c, id, Authorize(c, id, l, now, e).value, now)
    ensures Authorize(c, id, l, now, e).value.controls == l.controls
  {
    hide ViewOk, HistoryOk, RecordOk;
  }

  /** The run: a grant, a first copy of an event that arrives while the monitor is silent, and the event again
      under another signature. */
  function SecondSignatureRun(c: Crypto, id: Identity, now: int, nonce: string, salt: string, e: Event, other: string)
    : seq<Op>
    requires var l := Apply(c, id, UNTOUCHED, HourRequest(now, nonce, salt));
      l.current.Requested? && l.current.request.content.RequestContent?
  {
    var l := Apply(c, id, UNTOUCHED, HourRequest(now, nonce, salt));
    [Administer(HourRequest(now, nonce, salt)), Administer(Reply(c, l, now, salt)),
     Submit(e.(sig := other), ReadingsAt(now, Unreadable), false), Submit(e, ReadingsAt(now, Healthy(now)), false)]
  }

  /** The subject of a job need not be stored as it was signed: for any sound primitives and any supported event
      with two signatures, a new installation can store the event under the one and file a job for it under the
      other. */
  lemma SecondSignatureIsFiled(c: Crypto, id: Identity, now: int, nonce: string, salt: string, e: Event, other: string)
    requires Sound(c) && IsLowerHex(id.service, 64) && IsLowerHex(id.operator, 64) && IsLowerHex(nonce, 64) && 0 <= now
    requires SignedEventDigest(c, e, now).Some? && e.kind == 1415 && other != e.sig
    ensures var l := Apply(c, id, UNTOUCHED, HourRequest(now, nonce, salt));
      l.current.Requested? && l.current.request.content.RequestContent?
    ensures var ops := SecondSignatureRun(c, id, now, nonce, salt, e, other);
      var t, d := At(c, id, NewInstallation(now), ops, 4).tables, SignedEventDigest(c, e, now).value;
      d in t.jobs && t.jobs[d].inputs.subject == e && t.jobs[d].state.JobPending?
      && e.id in t.events && t.events[e.id] == e.(sig := other) && t.events[e.id] != e
  {
    hide Sound, Apply, SignedEventDigest, Observe, InForce, ViewOk, SaveTables;
    GrantInForce(c, id, now, nonce, salt);
    var ops, w := SecondSignatureRun(c, id, now, nonce, salt, e, other), NewInstallation(now);
    var l := Apply(c, id, UNTOUCHED, HourRequest(now, nonce, salt));
    var l' := Apply(c, id, l, Reply(c, l, now, salt));
    assert At(c, id, w, ops, 0) == w;
    assert At(c, id, w, ops, 1) == w.(ledger := l);
    assert At(c, id, w, ops, 2) == w.(ledger := l');
    SilentMonitor(c, id, w.(ledger := l'), e.(sig := other), now);
    DigestMeansFits(c, e, now);
    SaveJobs(w.tables, e.(sig := other), None, 1000, None);
    var w3 := w.(ledger := l', tables := SaveTables(w.tables, e.(sig := other), None, 1000, None));
    assert At(c, id, w, ops, 3) == w3;
    FilesHere(c, id, w3, e, now);
    var job := Observe(c, id, w3, e, ops[3].rd).1;
    assert At(c, id, w, ops, 4).tables == SaveTables(w3.tables, e, job, 1000, None);
    SaveJobs(w3.tables, e, job, 1000, None);
    assert w3.tables.jobs == map[];
  }

  lemma DigestMeansFits(c: Crypto, e: Event, now: int)
    requires SignedEventDigest(c, e, now).Some?
    ensures EventFits(e)
  {
    hide ValidEvent;
  }

  /** While the monitor is silent nothing is filed, and a clock that has not moved stays as it is. */
  lemma SilentMonitor(c: Crypto, id: Identity, w: World, e: Event, now: int)
    requires w.clock == ClockState(now as real, 0.0, false) && w.settings == MONITORED
    ensures Observe(c, id, w, e, ReadingsAt(now, Unreadable)) == (w.clock, None)
  {
    hide SignedEventDigest, ViewOk, GatesOpen;
  }

  lemma FilesHere(c: Crypto, id: Identity, w: World, e: Event, now: int)
    requires 0 <= now && w.clock == ClockState(now as real, 0.0, false) && w.settings == MONITORED
    requires SignedEventDigest(c, e, now).Some? && e.kind == 1415 && ViewOk(c, id, w.ledger, now)
    requires exists r :: InForce(w.ledger, MONITORED, r, now, Sample(now * 1000, Some(0)))
                         && 1415 in r.authorization.content.grant.kinds
    ensures var job := Observe(c, id, w, e, ReadingsAt(now, Healthy(now))).1;
      job.Some? && job.value.subject == e && Some(job.value.digest) == SignedEventDigest(c, e, now)
  {
    hide SignedEventDigest, ViewOk, InForce, Observe;
    var rd := ReadingsAt(now, Healthy(now));
    WholeSeconds(now);
    assert Sampled(w, rd) == Some(Sample(now * 1000, Some(0)));
    FilesJobIff(c, id, w, e, rd);
    var r, sample := ObservedInForce(c, id, w, e, rd);
  }
}
