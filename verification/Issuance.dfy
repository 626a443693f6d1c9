/** What becomes of a job: how its row starts, why it can be given up, and when its receipt is certain. */
module Issuance {
  import opened Text
  import opened Events
  import opened Store
  import opened Lifecycle
  import opened Clock
  import opened Receipts
  import opened Witnessing
  import opened WitnessingFacts
  import opened Runs
  import opened RunTheorems
  import opened Authenticity

  // ----- Filing

  /** The number of rows that are pending. */
  ghost function PendingCount(t: Tables): nat {
    |set d | d in t.jobs && t.jobs[d].state == JobPending|
  }

  /** Whether a job starts out pending: while there is room in the queue. */
  ghost predicate HasRoom(w: World) {
    PendingCount(w.tables) < w.settings.queueLimit
  }

  /** An accepted submission that observed a job with a new digest leaves the job's row, pending if and only if
      fewer rows than the limit were pending, and otherwise unavailable; it touches no other row. */
  lemma FiledRow(c: Crypto, id: Identity, w: World, e: Event, rd: Readings)
    requires Observe(c, id, w, e, rd).1.Some? && EventFits(e)
    requires Observe(c, id, w, e, rd).1.value.digest !in w.tables.jobs
    ensures var job, jobs := Observe(c, id, w, e, rd).1.value, Accept(c, id, w, e, rd, false).tables.jobs;
      && jobs.Keys == w.tables.jobs.Keys + {job.digest}
      && jobs[job.digest] == JobRow(job, if HasRoom(w) then JobPending else JobUnavailable, None, false)
      && (forall d :: d in w.tables.jobs ==> jobs[d] == w.tables.jobs[d])
  {
    hide Observe, SaveTables;
    SaveJobs(w.tables, e, Observe(c, id, w, e, rd).1, w.settings.queueLimit, None);
    assert PendingJobs(w.tables.jobs) == set d | d in w.tables.jobs && w.tables.jobs[d].state == JobPending;
  }

  lemma FiledHere(c: Crypto, id: Identity, w: World, op: Op, d: string)
    requires JobsOk(w.tables) && d !in w.tables.jobs && d in Next(c, id, w, op).tables.jobs
    ensures op.Submit? && !op.raises
      && Observe(c, id, w, op.event, op.rd).1 == Some(Next(c, id, w, op).tables.jobs[d].inputs)
    ensures d == Next(c, id, w, op).tables.jobs[d].inputs.digest && EventFits(op.event)
  {
    hide JobsOk, JobsEvolve, Observe, SaveTables, Commits, EventFits;
    Step(c, id, w, op);
  }

  // ----- Giving up

  /** Operation j was an issuance that the gates, the job's terms or the evidence refused. */
  ghost predicate RefusedAt(c: Crypto, id: Identity, w: World, ops: seq<Op>, j: nat, d: string)
    requires j < |ops|
  {
    ops[j].IssueJob? && ops[j].digest == d && !ops[j].raises
    && Decide(c, id, At(c, id, w, ops, j), d, ops[j].rd, ops[j].salt).1.Refused?
  }

  lemma GivenUpHere(c: Crypto, id: Identity, w: World, op: Op, d: string)
    requires d in w.tables.jobs && !w.tables.jobs[d].state.JobUnavailable?
    requires d in Next(c, id, w, op).tables.jobs && Next(c, id, w, op).tables.jobs[d].state.JobUnavailable?
    ensures op.IssueJob? && op.digest == d && !op.raises && Decide(c, id, w, d, op.rd, op.salt).1.Refused?
  {
    hide Observe, Decide, SaveTables, Apply;
    match op
    case Submit(e, rd, _) => SaveJobs(w.tables, e, Observe(c, id, w, e, rd).1, w.settings.queueLimit, None);
    case IssueJob(digest, rd, salt, _) =>
      var outcome := Decide(c, id, w, digest, rd, salt).1;
      if outcome.Issued? {
        SaveJobs(w.tables, outcome.receipt, None, 1000, Some(digest));
      }
    case _ =>
  }

  /** A job is given up for one of two reasons only: the queue was full when it was filed, or some issuance
      refused it. */
  lemma {:induction false} GivenUpBecause(c: Crypto, id: Identity, w: World, ops: seq<Op>, n: nat, d: string)
    returns (i: nat, j: nat)
    requires JobsOk(w.tables) && w.tables.jobs == map[] && n <= |ops|
    requires d in At(c, id, w, ops, n).tables.jobs && At(c, id, w, ops, n).tables.jobs[d].state.JobUnavailable?
    ensures i < n && FiledAt(c, id, w, ops, i, d, At(c, id, w, ops, n).tables.jobs[d].inputs)
    ensures !HasRoom(At(c, id, w, ops, i)) || (i < j < n && RefusedAt(c, id, w, ops, j, d))
  {
    hide JobsOk, JobsEvolve, Next, HasRoom, Observe, EventFits, Decide;
    var before := At(c, id, w, ops, n - 1);
    JobsThroughout(c, id, w, ops, n - 1, n - 1);
    JobsThroughout(c, id, w, ops, n - 1, n);
    j := n - 1;
    if d !in before.tables.jobs {
      i := n - 1;
      FiledHere(c, id, before, ops[i], d);
      FullQueue(c, id, before, ops[i], d);
    } else if before.tables.jobs[d].state.JobUnavailable? {
      i, j := GivenUpBecause(c, id, w, ops, n - 1, d);
      KeepsInputs(before.tables, At(c, id, w, ops, n).tables, d);
    } else {
      i := JobWasFiled(c, id, w, ops, n - 1, d);
      KeepsInputs(before.tables, At(c, id, w, ops, n).tables, d);
      GivenUpHere(c, id, before, ops[j], d);
    }
  }

  lemma FullQueue(c: Crypto, id: Identity, w: World, op: Op, d: string)
    requires op.Submit? && !op.raises && EventFits(op.event) && d !in w.tables.jobs
    requires Observe(c, id, w, op.event, op.rd).1.Some? && Observe(c, id, w, op.event, op.rd).1.value.digest == d
    requires Next(c, id, w, op).tables.jobs[d].state.JobUnavailable?
    ensures !HasRoom(w)
  {
    hide Observe, HasRoom, EventFits, Accept;
    FiledRow(c, id, w, op.event, op.rd);
  }

  // ----- A stepped clock

  lemma LatchedStep(c: Crypto, id: Identity, w: World, op: Op)
    requires w.clock.failed && !op.Restart?
    ensures Next(c, id, w, op).clock.failed
    ensures Next(c, id, w, op).tables.jobs.Keys == w.tables.jobs.Keys
    ensures forall d :: d in w.tables.jobs && Next(c, id, w, op).tables.jobs[d].state.JobIssued? ==>
      w.tables.jobs[d].state.JobIssued?
  {
    hide SaveTables, ViewOk, ViewOf, SignedEventDigest, Apply, GatesOpen, JobIsCurrent, ReceiptOk, ReceiptFor, Stepped,
      EventFits, PendingJobs;
    match op
    case Submit(e, rd, _) => SaveJobs(w.tables, e, Observe(c, id, w, e, rd).1, w.settings.queueLimit, None);
    case _ =>
  }

  /** From the moment a clock has latched until the process restarts, nothing is filed and nothing is issued. */
  lemma {:induction false} LatchStopsWitnessing(c: Crypto, id: Identity, w: World, ops: seq<Op>, i: nat, j: nat)
    requires i <= j <= |ops| && At(c, id, w, ops, i).clock.failed
    requires forall k :: i <= k < j ==> !ops[k].Restart?
    ensures At(c, id, w, ops, j).clock.failed
    ensures At(c, id, w, ops, j).tables.jobs.Keys == At(c, id, w, ops, i).tables.jobs.Keys
    ensures forall d :: (d in At(c, id, w, ops, i).tables.jobs
                         && At(c, id, w, ops, j).tables.jobs[d].state.JobIssued?) ==>
      At(c, id, w, ops, i).tables.jobs[d].state.JobIssued?
    decreases j
  {
    hide Next;
    if i < j {
      LatchStopsWitnessing(c, id, w, ops, i, j - 1);
      LatchedStep(c, id, At(c, id, w, ops, j - 1), ops[j - 1]);
    }
  }

  /** A restart, after a crash or with changed settings, loses nothing stored and forgets the latch and the
      worker's place. */
  lemma RestartStartsAfresh(c: Crypto, id: Identity, w: World, op: Op)
    requires op.Restart?
    ensures var w' := Next(c, id, w, op);
      w'.tables == w.tables && w'.ledger == w.ledger && w'.settings == op.settings
      && w'.worker.rows == map[] && w'.worker.sent.None?
      && w'.clock.wall == op.wall && w'.clock.monotonic == op.monotonic && !w'.clock.failed
      && forall rd: Readings :: rd.wall == op.wall && rd.monotonic == op.monotonic && op.settings.mode.System? ==>
           Sampled(w', rd).Some?
  {
  }

  // ----- Certainty

  /** The head grant still covers witnessing at a call with these readings: it is not suspended, its window holds
      the second and the reading, and the delay configured is one its policy allows. */
  ghost predicate StillCovers(w: World, r: GrantRecord, rd: Readings) {
    && Readable(r) && History(w.ledger) != [] && History(w.ledger)[|History(w.ledger)| - 1] == Grant(r)
    && !Suspended(w.ledger)
    && r.request.content.request.notBefore <= rd.viewAt && r.authorization.createdAt <= rd.viewAt
    && rd.viewAt < r.request.content.request.notAfter
    && Sampled(w, rd).Some? && Within(r, Sampled(w, rd).value)
    && (w.settings.mode.Bounded? || w.settings.maxDelay <= 60)
  }

  /** The job is no older than the configured delay at such a call, by the clock's report. */
  ghost predicate InTime(w: World, job: Job, rd: Readings) {
    Sampled(w, rd).Some? && 0 <= Sampled(w, rd).value.now - job.observedAt <= w.settings.maxDelay * 1000
  }

  /** The converse of AuthorizedTwice. A job filed at operation i that is still pending at operation j gets its
      receipt there, if storage does not fail, whenever the mode and the history are those of its filing, the
      grant still covers it, the delay is within the configured one, and the readings are in range. */
  lemma IssuedWhenDue(c: Crypto, id: Identity, w: World, ops: seq<Op>, i: nat, j: nat, d: string, job: Job,
    r: GrantRecord)
    requires Sound(c) && IsLowerHex(id.service, 64) && JobsOk(w.tables) && i < j < |ops|
    requires FiledAt(c, id, w, ops, i, d, job) && 0 <= job.observedAt
    requires d in At(c, id, w, ops, j).tables.jobs
    requires At(c, id, w, ops, j).tables.jobs[d].inputs == job && At(c, id, w, ops, j).tables.jobs[d].state.JobPending?
    requires ops[j].IssueJob? && ops[j].digest == d && !ops[j].raises && InRange(ops[j].rd, ops[i].rd.checkAt)
    requires ReadableAt(c, id, w.ledger, ops[j].rd.viewAt)
    requires forall k :: 0 <= k < j && ops[k].Administer? ==> ops[k].cmd.now <= ops[j].rd.viewAt
    requires At(c, id, w, ops, i).settings.mode == At(c, id, w, ops, j).settings.mode
    requires History(At(c, id, w, ops, i).ledger) == History(At(c, id, w, ops, j).ledger)
    requires StillCovers(At(c, id, w, ops, j), r, ops[j].rd)
    requires InTime(At(c, id, w, ops, j), job, ops[j].rd)
    ensures d in At(c, id, w, ops, j + 1).tables.jobs
    ensures At(c, id, w, ops, j + 1).tables.jobs[d].state.JobIssued?
    ensures At(c, id, w, ops, j + 1).tables.jobs[d].receipt.Some?
    ensures Commits(c, id, At(c, id, w, ops, j), ops[j], d, At(c, id, w, ops, j + 1).tables.jobs[d].receipt.value)
  {
    hide At, JobsOk, JobsEvolve, Next, Observe, Decide, InForce, StillCovers, InTime, Sampled, Sound, InRange,
      Buildable,
      ReadableAt, SignedEventDigest;
    var wi, wj, rd := At(c, id, w, ops, i), At(c, id, w, ops, j), ops[j].rd;
    var r', observed := ObservedInForce(c, id, wi, ops[i].event, ops[i].rd);
    SameCover(c, id, wi, ops[i].rd, observed, r', wj, rd, r, job);
    ReadableThroughout(c, id, w, ops, j, rd.viewAt);
    ReadableIsViewed(c, id, wj.ledger, rd.viewAt);
    FiledIsBuildable(c, id, wi, ops[i].event, ops[i].rd);
    BuildableNeverFails(c, id, wj, d, rd, ops[j].salt, ops[i].rd.checkAt);
    IssuedUnlessFailed(c, id, wj, d, rd, ops[j].salt, r);
    JobsThroughout(c, id, w, ops, j, j);
    NextAt(c, id, w, ops, j);
    CommitIssues(c, id, wj, ops[j], d, Decide(c, id, wj, d, rd, ops[j].salt).1.receipt);
  }

  lemma NextAt(c: Crypto, id: Identity, w: World, ops: seq<Op>, j: nat)
    requires j < |ops|
    ensures At(c, id, w, ops, j + 1) == Next(c, id, At(c, id, w, ops, j), ops[j])
  {
    hide Next;
  }

  lemma SameCover(c: Crypto, id: Identity, wi: World, rd: Readings, observed: Sample, r': GrantRecord,
    wj: World, rd': Readings, r: GrantRecord, job: Job)
    requires InForce(wi.ledger, wi.settings, r', rd.viewAt, observed) && Readable(r')
    requires JobClaims(c, id, job, wi.settings, r', observed)
    requires wi.settings.mode == wj.settings.mode && History(wi.ledger) == History(wj.ledger)
    requires StillCovers(wj, r, rd')
    requires InTime(wj, job, rd')
    ensures r == r' && Sampled(wj, rd').Some? && InForce(wj.ledger, wj.settings, r, rd'.viewAt, Sampled(wj, rd').value)
    ensures JobIsCurrent(id, job, r, wj.settings, Sampled(wj, rd').value.now)
  {
    hide History, Within, Markers, ExpectedMarkers, IsLowerHex, Sampled;
  }

  lemma IssuedUnlessFailed(c: Crypto, id: Identity, w: World, d: string, rd: Readings, salt: string, r: GrantRecord)
    requires d in w.tables.jobs && w.tables.jobs[d].state.JobPending? && ViewOk(c, id, w.ledger, rd.viewAt)
    requires Sampled(w, rd).Some? && InForce(w.ledger, w.settings, r, rd.viewAt, Sampled(w, rd).value)
    requires JobIsCurrent(id, w.tables.jobs[d].inputs, r, w.settings, Sampled(w, rd).value.now)
    ensures Decide(c, id, w, d, rd, salt).1.Issued? || Decide(c, id, w, d, rd, salt).1.Failed?
  {
    hide ViewOf, InForce, GatesOpen, JobIsCurrent, ReceiptOk, ReceiptFor, Reading, Advance, HistoryOk, ViewOk;
    GatesOpenIff(c, id, w, rd, Sampled(w, rd).value);
  }
}
