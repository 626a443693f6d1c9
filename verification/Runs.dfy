/** Runs of the whole witness: submissions, issuance, administration, clock checks, broadcasts and
    restarts in any order, each with arbitrary readings and arbitrary storage failures. */
module Runs {
  import opened Text
  import opened Events
  import opened Store
  import opened Lifecycle
  import opened Clock
  import opened Receipts
  import opened Witnessing
  import opened WitnessingFacts

  datatype Op =
    | Submit(event: Event, rd: Readings, raises: bool)
    | IssueJob(digest: string, rd: Readings, salt: string, raises: bool)
    | Administer(cmd: Command)
    | CheckClock(wall: real, monotonic: real)
    | ReadRows
    | Send(digest: string, completes: bool)
    | Mark(digest: string)
    | Restart(settings: Settings, wall: real, monotonic: real)

  /** The outstanding rows as they are when the worker reads them. */
  function Snapshot(t: Tables): map<string, JobRow> {
    map d | d in Batch(t) && d in t.jobs :: t.jobs[d]
  }

  /** The worker holds a row that was issued when it read it. */
  predicate Sendable(worker: Progress, d: string) {
    d in worker.rows && worker.rows[d].state.JobIssued?
  }

  /** The worker reads its rows, broadcasts the receipt of an issued one, and only once that has completed
      marks the row. It may stop after any of these steps: it then reads again, or the process restarts and has
      forgotten what it sent. */
  function Next(c: Crypto, id: Identity, w: World, op: Op): World {
    match op
    case Submit(event, rd, raises) => Accept(c, id, w, event, rd, raises)
    case IssueJob(digest, rd, salt, raises) => Issue(c, id, w, digest, rd, salt, raises)
    case Administer(cmd) => w.(ledger := Apply(c, id, w.ledger, cmd))
    case CheckClock(wall, monotonic) => w.(clock := Advance(w.clock, wall, monotonic))
    case ReadRows => w.(worker := Progress(Snapshot(w.tables), None))
    case Send(digest, completes) =>
      if Sendable(w.worker, digest)
      then w.(worker := w.worker.(sent := if completes then Some(digest) else None)) else w
    case Mark(digest) =>
      if w.worker.sent == Some(digest)
      then w.(tables := UpdateJob(w.tables, digest, false), worker := w.worker.(sent := None)) else w
    case Restart(settings, wall, monotonic) =>
      w.(settings := settings, clock := ClockState(wall, monotonic, false), worker := RESTING)
  }

  /** The world after the first n operations. */
  function At(c: Crypto, id: Identity, w: World, ops: seq<Op>, n: nat): World
    requires n <= |ops|
  {
    if n == 0 then w else Next(c, id, At(c, id, w, ops, n - 1), ops[n - 1])
  }

  /** The receipt an operation hands to the broadcast: the one in the row as the worker read it. */
  function Emitted(w: World, op: Op): Option<Event> {
    if op.Send? && Sendable(w.worker, op.digest) then w.worker.rows[op.digest].receipt else None
  }

  /** Everything sent by the first n operations, in order. */
  function Emissions(c: Crypto, id: Identity, w: World, ops: seq<Op>, n: nat): seq<Event>
    requires n <= |ops|
  {
    if n == 0 then []
    else
      var sent := Emitted(At(c, id, w, ops, n - 1), ops[n - 1]);
      Emissions(c, id, w, ops, n - 1) + if sent.Some? then [sent.value] else []
  }

  /** A run in two parts is one run. */
  lemma {:induction false} RunsJoin(c: Crypto, id: Identity, w: World, first: seq<Op>, rest: seq<Op>, n: nat)
    requires n <= |rest|
    ensures var middle := At(c, id, w, first, |first|);
      At(c, id, w, first + rest, |first| + n) == At(c, id, middle, rest, n)
      && Emissions(c, id, w, first + rest, |first| + n)
        == Emissions(c, id, w, first, |first|) + Emissions(c, id, middle, rest, n)
  {
    hide Next, Emitted;
    if n > 0 {
      RunsJoin(c, id, w, first, rest, n - 1);
    } else {
      PrefixOfRun(c, id, w, first, rest, |first|);
    }
  }

  lemma {:induction false} PrefixOfRun(c: Crypto, id: Identity, w: World, first: seq<Op>, rest: seq<Op>, n: nat)
    requires n <= |first|
    ensures At(c, id, w, first + rest, n) == At(c, id, w, first, n)
    ensures Emissions(c, id, w, first + rest, n) == Emissions(c, id, w, first, n)
  {
    hide Next, Emitted;
    if n > 0 {
      PrefixOfRun(c, id, w, first, rest, n - 1);
    }
  }

  // ----- The job table

  /** Later tables keep every job's inputs, never leave a terminal state, and never change a receipt. */
  ghost predicate JobsEvolve(t: Tables, t': Tables) {
    && t.jobOrder <= t'.jobOrder
    && (forall d :: d in t.jobs ==> d in t'.jobs && RowEvolves(t.jobs[d], t'.jobs[d]))
  }

  predicate RowEvolves(row: JobRow, row': JobRow) {
    && row'.inputs == row.inputs
    && (!row.state.JobPending? ==> row'.state == row.state && row'.receipt == row.receipt)
    && (row.broadcast ==> row'.broadcast)
  }

  /** Every row is filed under its digest, concerns a stored subject of a supported kind, and carries a
      receipt, itself stored, exactly when it is issued. */
  predicate RowOk(t: Tables, d: string, row: JobRow) {
    && row.inputs.digest == d
    && row.inputs.subject.id in t.events && SupportedKind(row.inputs.subject.kind)
    && (row.state.JobIssued? <==> row.receipt.Some?)
    && (row.receipt.Some? ==> row.receipt.value.id in t.events)
    && (row.broadcast ==> row.state.JobIssued?)
  }

  ghost predicate JobsOk(t: Tables) {
    && (forall d :: d in t.jobs ==> RowOk(t, d, t.jobs[d]))
    && (forall d :: d in t.jobs <==> d in t.jobOrder)
    && (forall i, j :: 0 <= i < j < |t.jobOrder| ==> t.jobOrder[i] != t.jobOrder[j])
  }

  lemma SaveJobs(t: Tables, e: Event, job: Option<Job>, queueLimit: int, completed: Option<string>)
    ensures SaveTables(t, e, job, queueLimit, completed).jobs
      == CompleteJob(EnqueueJob(t, job, queueLimit), e, completed).jobs
    ensures SaveTables(t, e, job, queueLimit, completed).jobOrder == EnqueueJob(t, job, queueLimit).jobOrder
    ensures SaveTables(t, e, job, queueLimit, completed).events
      == if e.id in t.events then t.events else t.events[e.id := e]
  {
    hide PendingJobs, TagRows, Deletions, EnqueueJob;
    EnqueueKeepsEvents(t, job, queueLimit);
  }

  lemma EnqueueKeepsEvents(t: Tables, job: Option<Job>, queueLimit: int)
    ensures EnqueueJob(t, job, queueLimit).events == t.events
  {
    hide PendingJobs;
  }

  lemma MoreEvents(t: Tables, t': Tables)
    requires JobsOk(t) && t'.jobs == t.jobs && t'.jobOrder == t.jobOrder && t.events.Keys <= t'.events.Keys
    ensures JobsOk(t')
  {
  }

  lemma AddRow(t: Tables, d: string, row: JobRow)
    requires JobsOk(t) && d !in t.jobs && RowOk(t, d, row)
    ensures JobsOk(t.(jobs := t.jobs[d := row], jobOrder := t.jobOrder + [d]))
  {
  }

  lemma ChangeRow(t: Tables, d: string, row: JobRow)
    requires JobsOk(t) && d in t.jobs && RowOk(t, d, row)
    ensures JobsOk(t.(jobs := t.jobs[d := row]))
  {
  }

  /** Filing a job with its subject. */
  lemma FileJob(t: Tables, e: Event, job: Option<Job>, queueLimit: int)
    requires JobsOk(t) && (job.Some? ==> job.value.subject == e && SupportedKind(e.kind))
    ensures var t' := SaveTables(t, e, job, queueLimit, None);
      JobsOk(t') && JobsEvolve(t, t')
      && (forall d :: d in t'.jobs && d !in t.jobs ==>
        job.Some? && d == job.value.digest && t'.jobs[d].inputs == job.value)
      && (forall d :: d in t'.jobs && t'.jobs[d].state.JobIssued? ==> d in t.jobs && t.jobs[d] == t'.jobs[d])
  {
    hide PendingJobs, TagRows, SaveTables, InsertEvent, JobsOk;
    SaveJobs(t, e, job, queueLimit, None);
    var t' := SaveTables(t, e, job, queueLimit, None);
    var grown := t'.(jobs := t.jobs, jobOrder := t.jobOrder);
    MoreEvents(t, grown);
    if job.Some? && job.value.digest !in t.jobs {
      AddRow(grown, job.value.digest, t'.jobs[job.value.digest]);
      assert t' == grown.(jobs := t.jobs[job.value.digest := t'.jobs[job.value.digest]],
        jobOrder := t.jobOrder + [job.value.digest]);
    } else {
      assert t' == grown;
    }
  }

  /** Completing a pending job with its receipt. */
  lemma FinishJob(t: Tables, receipt: Event, d: string)
    requires JobsOk(t) && d in t.jobs && t.jobs[d].state.JobPending?
    ensures var t' := SaveTables(t, receipt, None, 1000, Some(d));
      JobsOk(t') && JobsEvolve(t, t') && t'.jobs.Keys == t.jobs.Keys
      && t'.jobs[d] == t.jobs[d].(state := JobIssued, receipt := Some(receipt), broadcast := false)
      && forall x :: x in t.jobs && x != d ==> t'.jobs[x] == t.jobs[x]
  {
    hide PendingJobs, TagRows, SaveTables, InsertEvent, JobsOk;
    SaveJobs(t, receipt, None, 1000, Some(d));
    var t' := SaveTables(t, receipt, None, 1000, Some(d));
    var grown := t'.(jobs := t.jobs);
    MoreEvents(t, grown);
    RowOfJob(t, d);
    ChangeRow(grown, d, t'.jobs[d]);
    assert t' == grown.(jobs := t.jobs[d := t'.jobs[d]]);
  }

  lemma RowOfJob(t: Tables, d: string)
    requires JobsOk(t) && d in t.jobs
    ensures RowOk(t, d, t.jobs[d])
  {
  }

  lemma UpdateKeepsJobs(t: Tables, d: string, unavailable: bool)
    requires JobsOk(t)
    ensures var t' := UpdateJob(t, d, unavailable);
      JobsOk(t') && JobsEvolve(t, t') && t'.jobs.Keys == t.jobs.Keys
      && forall x :: x in t'.jobs && t'.jobs[x].state.JobIssued? ==>
        t.jobs[x].state.JobIssued? && t'.jobs[x].receipt == t.jobs[x].receipt
  {
    hide JobsOk;
    if d in t.jobs {
      RowOfJob(t, d);
      var t' := UpdateJob(t, d, unavailable);
      ChangeRow(t, d, t'.jobs[d]);
      assert t' == t.(jobs := t.jobs[d := t'.jobs[d]]);
    }
  }

  /** Where a new job comes from: an accepted submission that observed it. */
  ghost predicate Acquires(c: Crypto, id: Identity, w: World, op: Op, job: Job) {
    op.Submit? && !op.raises && Observe(c, id, w, op.event, op.rd).1 == Some(job)
  }

  /** Where a receipt comes from: an issuance that passed its gates and committed. */
  ghost predicate Commits(c: Crypto, id: Identity, w: World, op: Op, d: string, receipt: Event) {
    op.IssueJob? && op.digest == d && !op.raises && Decide(c, id, w, d, op.rd, op.salt).1 == Issued(receipt)
  }

  lemma SubmitStep(c: Crypto, id: Identity, w: World, op: Op)
    requires JobsOk(w.tables) && op.Submit?
    ensures JobsOk(Next(c, id, w, op).tables) && JobsEvolve(w.tables, Next(c, id, w, op).tables)
    ensures forall d :: d in Next(c, id, w, op).tables.jobs && d !in w.tables.jobs ==>
      d == Next(c, id, w, op).tables.jobs[d].inputs.digest
        && Acquires(c, id, w, op, Next(c, id, w, op).tables.jobs[d].inputs)
    ensures forall d :: d in Next(c, id, w, op).tables.jobs && Next(c, id, w, op).tables.jobs[d].state.JobIssued? ==>
      d in w.tables.jobs && w.tables.jobs[d] == Next(c, id, w, op).tables.jobs[d]
  {
    hide Observe, SaveTables, JobsOk;
    var job := Observe(c, id, w, op.event, op.rd).1;
    ObservedSubject(c, id, w, op.event, op.rd);
    FileJob(w.tables, op.event, job, w.settings.queueLimit);
  }

  lemma ObservedSubject(c: Crypto, id: Identity, w: World, e: Event, rd: Readings)
    ensures var job := Observe(c, id, w, e, rd).1; job.Some? ==> job.value.subject == e && SupportedKind(e.kind)
  {
    hide ViewOk, GatesOpen, SignedEventDigest, ViewOf;
  }

  lemma RefuseStep(c: Crypto, id: Identity, w: World, op: Op)
    requires JobsOk(w.tables) && op.IssueJob?
    requires op.raises || !Decide(c, id, w, op.digest, op.rd, op.salt).1.Issued?
    ensures JobsOk(Next(c, id, w, op).tables) && JobsEvolve(w.tables, Next(c, id, w, op).tables)
    ensures Next(c, id, w, op).tables.jobs.Keys == w.tables.jobs.Keys
    ensures forall d :: d in w.tables.jobs && Next(c, id, w, op).tables.jobs[d].state.JobIssued? ==>
      w.tables.jobs[d].state.JobIssued?
  {
    hide JobsOk, UpdateJob, Decide, JobsEvolve, RowEvolves;
    EvolvesFromItself(w.tables);
    UpdateKeepsJobs(w.tables, op.digest, true);
  }

  lemma EvolvesFromItself(t: Tables)
    ensures JobsEvolve(t, t)
  {
  }

  lemma IssueStep(c: Crypto, id: Identity, w: World, op: Op)
    requires JobsOk(w.tables) && op.IssueJob?
    ensures JobsOk(Next(c, id, w, op).tables) && JobsEvolve(w.tables, Next(c, id, w, op).tables)
    ensures Next(c, id, w, op).tables.jobs.Keys == w.tables.jobs.Keys
    ensures forall d :: (d in w.tables.jobs && !w.tables.jobs[d].state.JobIssued?
                         && Next(c, id, w, op).tables.jobs[d].state.JobIssued?) ==>
      Next(c, id, w, op).tables.jobs[d].receipt.Some?
        && Commits(c, id, w, op, d, Next(c, id, w, op).tables.jobs[d].receipt.value)
  {
    hide SaveTables, JobsOk, UpdateJob, Decide, JobsEvolve, RowEvolves;
    var outcome := Decide(c, id, w, op.digest, op.rd, op.salt).1;
    if outcome.Issued? && !op.raises {
      var r, sample := IssuedInForce(c, id, w, op.digest, op.rd, op.salt);
      FinishJob(w.tables, outcome.receipt, op.digest);
    } else {
      RefuseStep(c, id, w, op);
    }
  }

  /** One operation: the job table stays in order, only grows, and every novelty has its cause. */
  lemma Step(c: Crypto, id: Identity, w: World, op: Op)
    requires JobsOk(w.tables)
    ensures JobsOk(Next(c, id, w, op).tables) && JobsEvolve(w.tables, Next(c, id, w, op).tables)
    ensures forall d :: d in Next(c, id, w, op).tables.jobs && d !in w.tables.jobs ==>
      d == Next(c, id, w, op).tables.jobs[d].inputs.digest
        && Acquires(c, id, w, op, Next(c, id, w, op).tables.jobs[d].inputs)
    ensures forall d :: d in Next(c, id, w, op).tables.jobs && Next(c, id, w, op).tables.jobs[d].state.JobIssued?
                        && !(d in w.tables.jobs && w.tables.jobs[d].state.JobIssued?) ==>
      Next(c, id, w, op).tables.jobs[d].receipt.Some?
        && Commits(c, id, w, op, d, Next(c, id, w, op).tables.jobs[d].receipt.value)
  {
    hide Acquires, Commits, JobsOk, Accept, Issue;
    match op
    case Submit(_, _, _) => SubmitStep(c, id, w, op);
    case IssueJob(_, _, _, _) => IssueStep(c, id, w, op);
    case Mark(d) => UpdateKeepsJobs(w.tables, d, false);
    case _ =>
  }

  // ----- The worker

  /** What the worker has read is what the table says, or said before it moved on; the row it has sent was
      issued. */
  ghost predicate WorkerOk(w: World) {
    && (forall d :: d in w.worker.rows ==> d in w.tables.jobs && HeldRowOk(w.worker.rows[d], w.tables.jobs[d]))
    && (w.worker.sent.Some? ==> Sendable(w.worker, w.worker.sent.value))
  }

  predicate HeldRowOk(held: JobRow, row: JobRow) {
    RowEvolves(held, row) && (held.state.JobIssued? <==> held.receipt.Some?)
  }

  /** The worker's copy stays behind the table, whatever runs meanwhile. */
  lemma WorkerStep(c: Crypto, id: Identity, w: World, op: Op)
    requires JobsOk(w.tables) && WorkerOk(w)
    ensures WorkerOk(Next(c, id, w, op))
  {
    hide JobsOk, Accept, Issue, Apply, UpdateJob, Batch;
    Step(c, id, w, op);
    var w' := Next(c, id, w, op);
    WorkerMoves(c, id, w, op);
    forall d | d in w'.worker.rows ensures d in w'.tables.jobs && HeldRowOk(w'.worker.rows[d], w'.tables.jobs[d]) {
      if op.ReadRows? {
        RowOfJob(w.tables, d);
      } else {
        assert RowEvolves(w.worker.rows[d], w.tables.jobs[d]) && RowEvolves(w.tables.jobs[d], w'.tables.jobs[d]);
      }
    }
  }

  /** Only the worker's own steps and a restart move the worker. */
  lemma WorkerMoves(c: Crypto, id: Identity, w: World, op: Op)
    ensures !op.ReadRows? && !op.Restart? ==> Next(c, id, w, op).worker.rows == w.worker.rows
    ensures Next(c, id, w, op).worker.sent.Some? ==>
      Next(c, id, w, op).worker.sent == w.worker.sent
      || (op.Send? && op.completes && Sendable(w.worker, op.digest)
          && Next(c, id, w, op).worker.sent == Some(op.digest))
    ensures op.ReadRows? ==> Next(c, id, w, op).tables == w.tables
  {
    hide Observe, Decide, SaveTables, UpdateJob, Apply, Snapshot;
  }
}
