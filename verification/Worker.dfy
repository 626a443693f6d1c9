/** The worker's progress, its broadcasts, and the relay tables it leaves undisturbed. */
module Worker {
  import opened Text
  import opened Events
  import opened Store
  import opened Convergence
  import opened Lifecycle
  import opened Receipts
  import opened Witnessing
  import opened WitnessingFacts
  import opened Runs
  import opened RunTheorems

  // ----- Progress

  function Unsent(jobs: map<string, JobRow>): set<string> {
    set d | d in jobs && jobs[d].state.JobIssued? && !jobs[d].broadcast
  }

  /** Two steps for a pending job, one for an issued receipt not yet broadcast. */
  function Work(t: Tables): nat {
    2 * |PendingJobs(t.jobs)| + |Unsent(t.jobs)|
  }

  function One(b: bool): nat {
    if b then 1 else 0
  }

  lemma RowChange(jobs: map<string, JobRow>, d: string, row: JobRow)
    requires d in jobs
    ensures PendingJobs(jobs[d := row]) == PendingJobs(jobs) - {d} + (if row.state.JobPending? then {d} else {})
    ensures Unsent(jobs[d := row]) == Unsent(jobs) - {d} + (if row.state.JobIssued? && !row.broadcast then {d} else {})
  {
  }

  lemma RowChangeCounts(jobs: map<string, JobRow>, d: string, row: JobRow)
    requires d in jobs
    ensures |PendingJobs(jobs[d := row])|
      == |PendingJobs(jobs)| - One(d in PendingJobs(jobs)) + One(row.state.JobPending?)
    ensures |Unsent(jobs[d := row])|
      == |Unsent(jobs)| - One(d in Unsent(jobs)) + One(row.state.JobIssued? && !row.broadcast)
  {
    hide PendingJobs, Unsent;
    RowChange(jobs, d, row);
  }

  /** Handling a row that needs work, without a raise, strictly lowers the work that remains. */
  lemma HandlingProgresses(c: Crypto, id: Identity, w: World, op: Op)
    requires op.IssueJob? || op.Mark?
    requires op.IssueJob? ==>
      op.digest in PendingJobs(w.tables.jobs) && !op.raises && !Decide(c, id, w, op.digest, op.rd, op.salt).1.Failed?
    requires op.Mark? ==> op.digest in Unsent(w.tables.jobs) && w.worker.sent == Some(op.digest)
    ensures Work(Next(c, id, w, op).tables) < Work(w.tables)
  {
    hide Decide, SaveTables;
    var jobs := w.tables.jobs;
    if op.IssueJob? {
      PendingIsDecided(c, id, w, op.digest, op.rd, op.salt);
      IssuingProgresses(w.tables, op.digest, Decide(c, id, w, op.digest, op.rd, op.salt).1);
    } else {
      RowChangeCounts(jobs, op.digest, jobs[op.digest].(broadcast := true));
    }
  }

  lemma IssuingProgresses(t: Tables, d: string, outcome: Outcome)
    requires d in PendingJobs(t.jobs) && (outcome.Issued? || outcome.Refused?)
    ensures outcome.Issued? ==> Work(SaveTables(t, outcome.receipt, None, 1000, Some(d))) < Work(t)
    ensures outcome.Refused? ==> Work(UpdateJob(t, d, true)) < Work(t)
  {
    hide SaveTables;
    if outcome.Issued? {
      SaveJobs(t, outcome.receipt, None, 1000, Some(d));
      RowChangeCounts(t.jobs, d, t.jobs[d].(state := JobIssued, receipt := Some(outcome.receipt), broadcast := false));
    } else {
      RowChangeCounts(t.jobs, d, t.jobs[d].(state := JobUnavailable));
    }
  }

  lemma PendingIsDecided(c: Crypto, id: Identity, w: World, d: string, rd: Readings, salt: string)
    requires d in PendingJobs(w.tables.jobs)
    ensures !Decide(c, id, w, d, rd, salt).1.Skipped?
  {
    hide ViewOk, GatesOpen, ReceiptOk, ReceiptFor;
  }

  // ----- Broadcasts

  /** At every moment of a run the worker's copy of its rows is behind the table. */
  lemma {:induction false} WorkerThroughout(c: Crypto, id: Identity, w: World, ops: seq<Op>, n: nat)
    requires JobsOk(w.tables) && WorkerOk(w) && n <= |ops|
    ensures WorkerOk(At(c, id, w, ops, n))
  {
    hide JobsOk, WorkerOk, Next, JobsEvolve;
    if n > 0 {
      WorkerThroughout(c, id, w, ops, n - 1);
      JobsThroughout(c, id, w, ops, n - 1, n - 1);
      WorkerStep(c, id, At(c, id, w, ops, n - 1), ops[n - 1]);
    }
  }

  /** The worker only ever broadcasts the one committed receipt of a digest: what it sends at moment i, from
      the row it read some time before, is the stored receipt at that moment and at every moment after. */
  lemma BroadcastsAreCommitted(c: Crypto, id: Identity, w: World, ops: seq<Op>, i: nat, n: nat)
    requires JobsOk(w.tables) && WorkerOk(w) && i < |ops| && i <= n <= |ops|
    requires Emitted(At(c, id, w, ops, i), ops[i]).Some?
    ensures var d, jobs := ops[i].digest, At(c, id, w, ops, n).tables.jobs;
      d in jobs && jobs[d].state.JobIssued? && jobs[d].receipt == Emitted(At(c, id, w, ops, i), ops[i])
  {
    hide JobsOk, JobsEvolve, Next;
    WorkerThroughout(c, id, w, ops, i);
    JobsThroughout(c, id, w, ops, i, n);
    KeepsInputs(At(c, id, w, ops, i).tables, At(c, id, w, ops, n).tables, ops[i].digest);
  }

  /** A row that was not marked at the start of a run and is at its end: the worker completed the broadcast of
      its receipt at moment i, held on to that without a restart or a new reading, and marked the row at moment k. */
  lemma {:induction false} MarkedAfterBroadcast(c: Crypto, id: Identity, w: World, ops: seq<Op>, n: nat, d: string)
    returns (i: nat, k: nat)
    requires JobsOk(w.tables) && WorkerOk(w) && w.worker.sent.None? && n <= |ops|
    requires !Marked(w.tables, d) && Marked(At(c, id, w, ops, n).tables, d)
    ensures i < k < n && ops[i] == Send(d, true) && ops[k] == Mark(d)
    ensures At(c, id, w, ops, n).tables.jobs[d].receipt.Some?
    ensures Emitted(At(c, id, w, ops, i), ops[i]) == At(c, id, w, ops, n).tables.jobs[d].receipt
    ensures forall m :: i < m <= k ==> At(c, id, w, ops, m).worker.sent == Some(d)
    ensures forall m :: i < m < k ==> !ops[m].ReadRows? && !ops[m].Restart?
  {
    hide JobsOk, JobsEvolve, Next, WorkerOk;
    k := WhenMarked(c, id, w, ops, n, d);
    i := WhenSent(c, id, w, ops, k, d);
    WorkerThroughout(c, id, w, ops, i);
    SentIsIssued(At(c, id, w, ops, i), d);
    BroadcastsAreCommitted(c, id, w, ops, i, n);
    forall m | i < m < k ensures !ops[m].ReadRows? && !ops[m].Restart? {
      assert At(c, id, w, ops, m + 1).worker.sent == Some(d);
      if ops[m].ReadRows? || ops[m].Restart? {
        ForgetsSent(c, id, At(c, id, w, ops, m), ops[m]);
      }
    }
  }

  predicate Marked(t: Tables, d: string) {
    d in t.jobs && t.jobs[d].broadcast
  }

  lemma SentIsIssued(w: World, d: string)
    requires WorkerOk(w) && Sendable(w.worker, d)
    ensures w.worker.rows[d].receipt.Some?
  {
  }

  lemma ForgetsSent(c: Crypto, id: Identity, w: World, op: Op)
    requires op.ReadRows? || op.Restart?
    ensures Next(c, id, w, op).worker.sent.None?
  {
  }

  lemma {:induction false} WhenMarked(c: Crypto, id: Identity, w: World, ops: seq<Op>, n: nat, d: string)
    returns (k: nat)
    requires JobsOk(w.tables) && n <= |ops|
    requires !Marked(w.tables, d) && Marked(At(c, id, w, ops, n).tables, d)
    ensures k < n && ops[k] == Mark(d) && At(c, id, w, ops, k).worker.sent == Some(d)
  {
    hide JobsOk, JobsEvolve, Next;
    var before := At(c, id, w, ops, n - 1);
    if Marked(before.tables, d) {
      k := WhenMarked(c, id, w, ops, n - 1, d);
    } else {
      k := n - 1;
      JobsThroughout(c, id, w, ops, k, k);
      MarkStep(c, id, before, ops[k], d);
    }
  }

  /** The worker remembers a send only from a completed Send of that row. */
  lemma {:induction false} WhenSent(c: Crypto, id: Identity, w: World, ops: seq<Op>, n: nat, d: string) returns (i: nat)
    requires w.worker.sent.None? && n <= |ops| && At(c, id, w, ops, n).worker.sent == Some(d)
    ensures i < n && ops[i] == Send(d, true) && Sendable(At(c, id, w, ops, i).worker, d)
    ensures forall m :: i < m <= n ==> At(c, id, w, ops, m).worker.sent == Some(d)
  {
    hide Next;
    WorkerMoves(c, id, At(c, id, w, ops, n - 1), ops[n - 1]);
    if ops[n - 1] == Send(d, true) && Sendable(At(c, id, w, ops, n - 1).worker, d) {
      i := n - 1;
    } else {
      i := WhenSent(c, id, w, ops, n - 1, d);
    }
  }

  lemma MarkStep(c: Crypto, id: Identity, w: World, op: Op, d: string)
    requires JobsOk(w.tables)
    requires !Marked(w.tables, d) && Marked(Next(c, id, w, op).tables, d)
    ensures op == Mark(d) && w.worker.sent == Some(d)
  {
    hide Observe, Decide, SaveTables, JobsOk, Apply;
    match op
    case Submit(e, rd, _) => SaveJobs(w.tables, e, Observe(c, id, w, e, rd).1, w.settings.queueLimit, None);
    case IssueJob(digest, rd, salt, _) =>
      var outcome := Decide(c, id, w, digest, rd, salt).1;
      if outcome.Issued? {
        SaveJobs(w.tables, outcome.receipt, None, 1000, Some(digest));
      }
    case _ =>
  }

  // ----- The relay is not disturbed

  /** The tables an ordinary relay client can see. */
  ghost predicate SameRelay(t: Tables, u: Tables) {
    t.events == u.events && t.tags == u.tags && t.deletions == u.deletions
  }

  /** Whatever witnessing does with an event, the relay's own tables change as by a plain save. */
  lemma AcceptIsPlainSave(c: Crypto, id: Identity, w: World, e: Event, rd: Readings, u: Tables)
    requires SameRelay(w.tables, u)
    ensures SameRelay(Accept(c, id, w, e, rd, false).tables,
      if EventFits(e) then SaveTables(u, e, None, 0, None) else u)
  {
    hide Observe, PendingJobs, TagRows, Deletions, EventFits;
  }

  /** For every sequence of submissions, whichever authority, clock and queue branches they take, the relay
      holds the events, tags and tombstones that plain saves of the same events leave. */
  lemma {:induction false} SubmissionsArePlainSaves(c: Crypto, id: Identity, w: World, ops: seq<Op>, es: seq<Event>)
    requires |es| == |ops| && forall i :: 0 <= i < |ops| ==> ops[i].Submit? && !ops[i].raises && ops[i].event == es[i]
    ensures SameRelay(At(c, id, w, ops, |ops|).tables, SaveAll(w.tables, es))
  {
    PrefixesArePlainSaves(c, id, w, ops, es, |ops|);
    assert es[..|ops|] == es;
  }

  lemma {:induction false} PrefixesArePlainSaves(c: Crypto, id: Identity, w: World, ops: seq<Op>, es: seq<Event>,
    n: nat)
    requires |es| == |ops| && forall i :: 0 <= i < |ops| ==> ops[i].Submit? && !ops[i].raises && ops[i].event == es[i]
    requires n <= |ops|
    ensures SameRelay(At(c, id, w, ops, n).tables, SaveAll(w.tables, es[..n]))
  {
    hide Accept, SaveTables, SameRelay;
    if n > 0 {
      PrefixesArePlainSaves(c, id, w, ops, es, n - 1);
      AcceptIsPlainSave(c, id, At(c, id, w, ops, n - 1), es[n - 1], ops[n - 1].rd, SaveAll(w.tables, es[..n - 1]));
      assert es[..n][..n - 1] == es[..n - 1];
    } else {
      SameRelayReflexive(w.tables);
    }
  }

  lemma SameRelayReflexive(t: Tables)
    ensures SameRelay(t, t)
  {
  }

  // ----- Store invariants over whole runs

  /** Later tables are in order and hold at least the events and tombstones of earlier ones. */
  ghost predicate TablesGrow(t: Tables, t': Tables) {
    TablesOk(t') && t.events.Keys <= t'.events.Keys && t.deletions.Keys <= t'.deletions.Keys
  }

  lemma SaveGrows(t: Tables, e: Event, job: Option<Job>, queueLimit: int, completed: Option<string>)
    requires TablesOk(t) && WellFormed(e)
    ensures TablesGrow(t, SaveTables(t, e, job, queueLimit, completed))
  {
    hide TablesOk, SaveTables, WellFormed;
    SaveKeepsTablesOk(t, e, job, queueLimit, completed);
    SaveOnlyAdds(t, e, job, queueLimit, completed);
  }

  lemma UpdateGrows(t: Tables, d: string, unavailable: bool)
    requires TablesOk(t)
    ensures TablesGrow(t, UpdateJob(t, d, unavailable))
  {
    hide TablesOk;
    SameIndex(t, UpdateJob(t, d, unavailable));
  }

  lemma IssueGrows(c: Crypto, id: Identity, w: World, op: Op)
    requires TablesOk(w.tables) && op.IssueJob?
    ensures TablesGrow(w.tables, Next(c, id, w, op).tables)
  {
    hide TablesOk, SaveTables, UpdateJob, Decide, ReceiptOk, WellFormed, JobIsCurrent, InForce, ReceiptFor;
    var outcome := Decide(c, id, w, op.digest, op.rd, op.salt).1;
    if outcome.Issued? {
      var r, sample := IssuedInForce(c, id, w, op.digest, op.rd, op.salt);
      IssuedReceiptFits(c, outcome.receipt, w.tables.jobs[op.digest].inputs.subject, op.rd.checkAt);
      SaveGrows(w.tables, outcome.receipt, None, 1000, Some(op.digest));
    } else {
      UpdateGrows(w.tables, op.digest, true);
    }
  }

  lemma StepKeepsTables(c: Crypto, id: Identity, w: World, op: Op)
    requires TablesOk(w.tables) && (op.Submit? ==> WellFormed(op.event))
    ensures TablesGrow(w.tables, Next(c, id, w, op).tables)
  {
    hide TablesOk, SaveTables, Observe, Issue, Apply, UpdateJob, WellFormed;
    match op
    case Submit(e, rd, raises) => SaveGrows(w.tables, e, Observe(c, id, w, e, rd).1, w.settings.queueLimit, None);
    case IssueJob(_, _, _, _) => IssueGrows(c, id, w, op);
    case Mark(d) => UpdateGrows(w.tables, d, false);
    case _ =>
  }

  lemma SaveOnlyAdds(t: Tables, e: Event, job: Option<Job>, queueLimit: int, completed: Option<string>)
    ensures t.events.Keys <= SaveTables(t, e, job, queueLimit, completed).events.Keys
    ensures t.deletions.Keys <= SaveTables(t, e, job, queueLimit, completed).deletions.Keys
  {
    hide PendingJobs, TagRows, DeletionKeys;
  }

  /** At every moment of every run the tag index is exact, and a hidden event stays hidden. */
  lemma {:induction false} TablesThroughout(c: Crypto, id: Identity, w: World, ops: seq<Op>, i: nat, j: nat, e: Event)
    requires TablesOk(w.tables) && i <= j <= |ops|
    requires forall op :: op in ops && op.Submit? ==> WellFormed(op.event)
    ensures TablesOk(At(c, id, w, ops, j).tables)
    ensures !Visible(At(c, id, w, ops, i).tables, e) ==> !Visible(At(c, id, w, ops, j).tables, e)
    decreases j
  {
    hide TablesOk, Next, WellFormed;
    if j > 0 {
      TablesThroughout(c, id, w, ops, if i < j then i else j - 1, j - 1, e);
      StepKeepsTables(c, id, At(c, id, w, ops, j - 1), ops[j - 1]);
    }
  }

  /** The events whose submission committed among the first n operations. */
  function Committed(ops: seq<Op>, n: nat): set<Event>
    requires n <= |ops|
  {
    set op | op in ops[..n] && op.Submit? && !op.raises && EventFits(op.event) :: op.event
  }

  /** At every moment of every run, with storage failures, issuance and restarts, the tombstones are those at
      the start and exactly those named by the deletion requests committed since. */
  lemma {:induction false} TombstonesThroughout(c: Crypto, id: Identity, w: World, ops: seq<Op>, n: nat)
    requires n <= |ops|
    ensures At(c, id, w, ops, n).tables.deletions.Keys == w.tables.deletions.Keys + AllDeletionKeys(Committed(ops, n))
  {
    hide Next, DeletionKeys, EventFits, AllDeletionKeys;
    if n == 0 {
      NoDeletionKeys();
      assert Committed(ops, 0) == {};
    } else {
      var before, op := At(c, id, w, ops, n - 1), ops[n - 1];
      TombstonesThroughout(c, id, w, ops, n - 1);
      TombstoneStep(c, id, before, op);
      assert ops[..n] == ops[..n - 1] + [op];
      if op.Submit? && !op.raises && EventFits(op.event) {
        assert Committed(ops, n) == Committed(ops, n - 1) + {op.event};
        OneMore(Committed(ops, n - 1), op.event);
      } else {
        assert Committed(ops, n) == Committed(ops, n - 1);
      }
    }
  }

  lemma NoDeletionKeys()
    ensures AllDeletionKeys({}) == {}
  {
  }

  lemma TombstoneStep(c: Crypto, id: Identity, w: World, op: Op)
    ensures Next(c, id, w, op).tables.deletions.Keys == w.tables.deletions.Keys
      + if op.Submit? && !op.raises && EventFits(op.event) then DeletionKeys(op.event) else {}
  {
    hide Observe, Decide, SaveTables, Apply, DeletionKeys, EventFits;
    match op
    case Submit(e, rd, raises) =>
      SaveDeletions(w.tables, e, Observe(c, id, w, e, rd).1, w.settings.queueLimit, None);
    case IssueJob(d, rd, salt, raises) =>
      var outcome := Decide(c, id, w, d, rd, salt).1;
      if outcome.Issued? {
        SaveDeletions(w.tables, outcome.receipt, None, 1000, Some(d));
        ReceiptsDeleteNothing(c, id, w, d, rd, salt);
      }
    case _ =>
  }

  lemma SaveDeletions(t: Tables, e: Event, job: Option<Job>, queueLimit: int, completed: Option<string>)
    ensures SaveTables(t, e, job, queueLimit, completed).deletions.Keys == t.deletions.Keys + DeletionKeys(e)
  {
    hide PendingJobs, TagRows, DeletionKeys;
  }

  lemma ReceiptsDeleteNothing(c: Crypto, id: Identity, w: World, d: string, rd: Readings, salt: string)
    requires Decide(c, id, w, d, rd, salt).1.Issued?
    ensures DeletionKeys(Decide(c, id, w, d, rd, salt).1.receipt) == {}
  {
    hide Decide, InForce, JobIsCurrent, ReceiptFor;
    var r, sample := IssuedInForce(c, id, w, d, rd, salt);
  }
}
