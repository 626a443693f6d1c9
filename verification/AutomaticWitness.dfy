/** The witness object: acceptance, issuance and the worker, over the store, the authority and the clock. */
module AutomaticWitnesses {
  import opened Text
  import opened Events
  import opened Store
  import opened EventStores
  import opened Lifecycle
  import opened WitnessAuthority
  import opened Clock
  import opened Receipts
  import opened Witnessing
  import opened WitnessingFacts
  import opened Runs
  import opened RunTheorems
  import opened Worker

  /** What surrounds the handling of one row: readings, randomness, a storage fault, and whether the broadcast
      fails or times out. */
  datatype Turn = Turn(rd: Readings, salt: string, fault: Fault, sendFails: bool)

  /** Nothing goes wrong and the readings are in range. */
  predicate Calm(turn: Turn, since: int) {
    turn.fault.NoFault? && !turn.sendFails && InRange(turn.rd, since)
  }

  class AutomaticWitness {
    const settings: Settings
    const store: EventStore
    const authority: WitnessAuthorization
    const clock: WitnessClock
    /** The locals of the worker loop. */
    ghost var worker: Progress

    constructor (settings: Settings, store: EventStore, authority: WitnessAuthorization, wall: real, monotonic: real)
      requires store.Valid()
      ensures Valid() && fresh(clock) && this.store == store && this.authority == authority && this.settings == settings
      ensures State() == World(store.State(), authority.State(), ClockState(wall, monotonic, false), settings, RESTING)
    {
      this.settings, this.store, this.authority := settings, store, authority;
      clock := new WitnessClock(settings.mode, wall, monotonic);
      worker := RESTING;
    }

    ghost predicate Valid()
      reads store
    {
      store.Valid() && clock.mode == settings.mode
    }

    ghost function State(): World
      reads this, store, authority, clock
    {
      World(store.State(), authority.State(), clock.State(), settings, worker)
    }

    /** The world after a run of operations from world `w`. */
    ghost function Ran(w: World, ops: seq<Op>): World {
      At(authority.crypto, authority.identity, w, ops, |ops|)
    }

    /** What such a run sends. */
    ghost function Sends(w: World, ops: seq<Op>): seq<Event> {
      Emissions(authority.crypto, authority.identity, w, ops, |ops|)
    }

    /** accept: decides whether to file a job, and saves the event either way. */
    method Accept(e: Event, rd: Readings, fault: Fault) returns (r: SaveResult)
      requires Valid() && WellFormed(e)
      modifies store, clock
      ensures Valid()
      ensures State() == Witnessing.Accept(authority.crypto, authority.identity, old(State()), e, rd, r.Raised?)
      ensures r.Saved? ==> r.inserted == (e.id !in old(store.events))
      ensures fault.NoFault? && EventFits(e) ==> r.Saved?
    {
      var job := Consider(e, rd);
      r := store.Save(e, job, settings.queueLimit, None, fault);
    }

    /** The branches of accept before its save. */
    method Consider(e: Event, rd: Readings) returns (job: Option<Job>)
      requires Valid()
      modifies clock
      ensures (clock.State(), job) == Observe(authority.crypto, authority.identity, old(State()), e, rd)
    {
      hide ViewOf, ViewOk, SignedEventDigest, Within, PolicyAllowsMode, Advance, Reading;
      var c, id := authority.crypto, authority.identity;
      if !SupportedKind(e.kind) {
        return None;
      }
      var digest := SignedEventDigest(c, e, rd.checkAt);
      if digest.None? {
        return None;
      }
      var view := authority.View(rd.viewAt);
      if view.None? {
        return None;
      }
      var sample := clock.TakeSample(rd.wall, rd.monotonic, rd.health);
      if sample.None? || !view.value.Permitted() || view.value.grant.None? {
        return None;
      }
      var r := view.value.grant.value;
      ViewedGrantIsReadable(c, id, authority.State(), rd.viewAt);
      if e.kind !in r.request.content.request.kinds
        || !PolicyAllowsMode(r.policy, settings) || !Within(r, sample.value) {
        return None;
      }
      job := Some(Job(e, digest.value, VersionOf(settings.mode), sample.value.now, sample.value.uncertainty,
        r.authorization.id, r.request.content.request.policyDigest, id.service));
    }

    /** issue: marks the job unavailable, or commits a receipt that its own verifier accepts. */
    method Issue(digest: string, rd: Readings, salt: string, fault: Fault) returns (outcome: Outcome, raised: bool)
      requires Valid()
      modifies store, clock
      ensures Valid()
      ensures outcome == Decide(authority.crypto, authority.identity, old(State()), digest, rd, salt).1
      ensures State() == Witnessing.Issue(authority.crypto, authority.identity, old(State()), digest, rd, salt, raised)
      ensures fault.NoFault? ==> !raised
    {
      hide ViewOf, ViewOk, ReceiptOk, ReceiptFor, SaveTables, UpdateJob;
      raised := false;
      ghost var before := State();
      outcome := Judge(digest, rd, salt);
      match outcome
      case Refused =>
        if fault.AtJob? {
          raised := true;
        } else {
          store.WitnessUpdate(digest, true);
        }
      case Issued(receipt) =>
        var subject := store.jobs[digest].inputs.subject;
        IssuedIsStorable(authority.crypto, authority.identity, before, digest, rd, salt);
        var saved := store.Save(receipt, None, 1000, Some(digest), fault);
        raised := saved.Raised?;
      case _ =>
    }

    /** The branches of issue before its storage transaction. */
    method Judge(digest: string, rd: Readings, salt: string) returns (outcome: Outcome)
      requires Valid()
      modifies clock
      ensures (clock.State(), outcome) == Decide(authority.crypto, authority.identity, old(State()), digest, rd, salt)
      ensures outcome.Issued? ==> digest in store.jobs
    {
      hide ViewOf, ViewOk, ReceiptOk, ReceiptFor, Within, PolicyAllowsMode, Advance, Reading, JobIsCurrent;
      var c, id := authority.crypto, authority.identity;
      if digest !in store.jobs || !store.jobs[digest].state.JobPending? {
        return Skipped;
      }
      var job := store.jobs[digest].inputs;
      var view := authority.View(rd.viewAt);
      if view.None? {
        return Refused;
      }
      var sample := clock.TakeSample(rd.wall, rd.monotonic, rd.health);
      if sample.None? || !view.value.Permitted() || view.value.grant.None? {
        return Refused;
      }
      var r := view.value.grant.value;
      ViewedGrantIsReadable(c, id, authority.State(), rd.viewAt);
      if !PolicyAllowsMode(r.policy, settings) || !Within(r, sample.value)
        || !JobIsCurrent(id, job, r, settings, sample.value.now) {
        return Refused;
      }
      var receipt := ReceiptFor(c, id, job, sample.value.now, salt);
      outcome := if ReceiptOk(c, receipt, job.subject, rd.checkAt) then Issued(receipt) else Failed;
    }

    /** check_clock: a sample taken only to notice steps. */
    method CheckStep(rd: Readings)
      requires Valid()
      modifies clock
      ensures State() == Next(authority.crypto, authority.identity, old(State()), CheckClock(rd.wall, rd.monotonic))
    {
      var sample := clock.TakeSample(rd.wall, rd.monotonic, rd.health);
    }

    /** One row, as the worker read it at the start of its pass. A pending row is issued. The receipt of an
        issued row is broadcast, and the row is marked only if that did not fail. */
    method HandleRow(d: string, row: JobRow, turn: Turn, ghost since: int)
      returns (sent: seq<Event>, raised: bool, ghost ops: seq<Op>)
      requires Valid() && JobsOk(store.State()) && WorkerOk(State()) && worker.sent.None?
      requires d in worker.rows && worker.rows[d] == row && !row.state.JobUnavailable?
      modifies store, clock, this`worker
      ensures Valid() && worker.rows == old(worker.rows) && store.jobs.Keys == old(store.jobs.Keys)
      ensures State() == Ran(old(State()), ops) && sent == Sends(old(State()), ops)
      ensures JobsOk(store.State()) && JobsEvolve(old(store.State()), store.State()) && WorkerOk(State())
      ensures !raised ==> worker.sent.None?
      ensures MarkedWereSent(old(store.State()), store.State(), sent)
      ensures row.state.JobIssued? ==> raised == (turn.sendFails || turn.fault.AtJob?) && sent == [row.receipt.value]
      ensures row.state.JobIssued? ==>
        if raised then store.State() == old(store.State()) else Marked(store.State(), d)
      ensures Work(store.State()) <= Work(old(store.State()))
      ensures !raised && row == old(store.jobs[d]) && NeedsWork(old(store.State()), d) ==>
        Work(store.State()) < Work(old(store.State()))
      ensures Calm(turn, since) && CanIssue(authority.crypto, authority.identity, old(store.State()), since) ==> !raised
    {
      hide Witnessing.Issue, Decide, JobsOk, JobsEvolve, Work, WorkerOk, CanIssue, MarkedWereSent, InRange;
      var c, id := authority.crypto, authority.identity;
      ghost var before := State();
      HeldRow(before, d);
      if row.state.JobPending? {
        sent := [];
        var outcome, failed := Issue(d, turn.rd, turn.salt, turn.fault);
        raised := failed || outcome.Failed?;
        ops := [IssueJob(d, turn.rd, turn.salt, failed)];
        IssueIsStep(c, id, before, d, turn.rd, turn.salt, failed);
        IssueIsCalm(c, id, before, d, turn.rd, turn.salt, since);
      } else {
        sent := [row.receipt.value];
        worker := worker.(sent := if turn.sendFails then None else Some(d));
        ops := [Send(d, !turn.sendFails)];
        raised := turn.sendFails || turn.fault.AtJob?;
        if !raised {
          store.WitnessUpdate(d, false);
          worker := worker.(sent := None);
          ops := [Send(d, true), Mark(d)];
          MarkIsStep(before.tables, d);
        }
        SendIsRun(c, id, before, d, row.receipt.value, !turn.sendFails);
      }
      RunKeeps(c, id, before, ops);
    }

    /** One pass of the worker: a look at the clock, then the oldest outstanding rows in turn until one raises. */
    method Pass(check: Readings, turns: nat -> Turn, ghost since: int)
      returns (sent: seq<Event>, idle: bool, raised: bool, ghost ops: seq<Op>)
      requires Valid() && JobsOk(store.State()) && WorkerOk(State()) && worker.sent.None?
      modifies store, clock, this`worker
      ensures Valid() && store.jobs.Keys == old(store.jobs.Keys)
      ensures State() == Ran(old(State()), ops) && sent == Sends(old(State()), ops)
      ensures JobsOk(store.State()) && JobsEvolve(old(store.State()), store.State()) && WorkerOk(State())
      ensures !raised ==> worker.sent.None?
      ensures MarkedWereSent(old(store.State()), store.State(), sent)
      ensures Work(store.State()) <= Work(old(store.State()))
      ensures idle ==> Work(store.State()) == 0 && !raised
      ensures !idle && !raised ==> Work(store.State()) < Work(old(store.State()))
      ensures CanIssue(authority.crypto, authority.identity, old(store.State()), since) ==>
        (forall i :: Calm(turns(i), since)) ==> !raised
    {
      hide Work, JobsOk, JobsEvolve, WorkerOk, CanIssue, MarkedWereSent, Calm, Snapshot, Next, Batch;
      var c, id := authority.crypto, authority.identity;
      ghost var before, start := State(), store.State();
      CheckStep(check);
      var rows := store.WitnessRows();
      var snapshot := store.jobs;
      worker := Progress(Snapshot(store.State()), None);
      ops, sent, raised := [CheckClock(check.wall, check.monotonic), ReadRows], [], false;
      ReadIsRun(c, id, before, check);
      BatchNeedsWork(start);
      RunKeeps(c, id, before, ops);
      idle := rows == [];
      if idle {
        NothingInBatch(start);
      }
      var i := 0;
      while i < |rows| && !raised
        invariant 0 <= i <= |rows|
        invariant Valid() && worker.rows == Snapshot(start) && store.jobs.Keys == start.jobs.Keys
        invariant JobsOk(store.State()) && JobsEvolve(start, store.State()) && WorkerOk(State())
        invariant State() == Ran(before, ops) && sent == Sends(before, ops)
        invariant !raised ==> worker.sent.None?
        invariant i == 0 ==> store.State() == start && !raised
        invariant Work(store.State()) <= Work(start)
        invariant i > 0 && !raised ==> Work(store.State()) < Work(start)
        invariant (forall k :: Calm(turns(k), since)) && CanIssue(c, id, start, since) ==> !raised
      {
        ghost var middle := State();
        var more;
        ghost var steps;
        assert rows[i] in Batch(start);
        StillCanIssue(c, id, start, middle.tables, since);
        more, raised, steps := HandleRow(rows[i], snapshot[rows[i]], turns(i), since);
        RunsJoin(c, id, before, ops, steps, |steps|);
        EvolveTransitive(start, middle.tables, store.State());
        ops, sent := ops + steps, sent + more;
        i := i + 1;
      }
      MarksOfRun(c, id, before, ops);
    }

    /** The worker without new submissions: passes until nothing is left, or until one raises, after which the
        next pass would start over. What it does is a run of worker operations, and it sends exactly what that
        run emits: every row it marks has had its receipt broadcast, everything broadcast is a committed
        receipt, and if nothing raises every issued receipt not marked before has been broadcast. Over buildable
        jobs, with readings in range and no faults, nothing raises. */
    method Drain(checks: nat -> Readings, turns: (nat, nat) -> Turn, ghost since: int)
      returns (sent: seq<Event>, raised: bool, ghost ops: seq<Op>)
      requires Valid() && JobsOk(store.State())
      modifies store, clock, this`worker
      ensures Valid() && JobsOk(store.State()) && JobsEvolve(old(store.State()), store.State())
      ensures State() == Ran(old(State()).(worker := RESTING), ops)
        && sent == Sends(old(State()).(worker := RESTING), ops)
      ensures MarkedWereSent(old(store.State()), store.State(), sent)
      ensures forall e :: e in sent ==> Recorded(store.State(), e)
      ensures !raised ==> AllDelivered(old(store.State()), store.State(), sent)
      ensures CanIssue(authority.crypto, authority.identity, old(store.State()), since) ==>
        (forall t, i :: Calm(turns(t, i), since)) ==> !raised
    {
      hide Work, JobsOk, JobsEvolve, WorkerOk, CanIssue, MarkedWereSent, Calm, Next;
      var c, id := authority.crypto, authority.identity;
      worker := RESTING;
      ghost var before := State();
      sent, raised, ops := [], false, [];
      var turn, idle := 0, false;
      RestingIsOk(before);
      EvolvesFromItself(before.tables);
      while !idle && !raised
        invariant Valid() && store.jobs.Keys == before.tables.jobs.Keys
        invariant JobsOk(store.State()) && JobsEvolve(before.tables, store.State()) && WorkerOk(State())
        invariant State() == Ran(before, ops) && sent == Sends(before, ops)
        invariant !raised ==> worker.sent.None?
        invariant idle ==> Work(store.State()) == 0
        invariant (forall t, i :: Calm(turns(t, i), since)) && CanIssue(c, id, before.tables, since) ==> !raised
        decreases Work(store.State()), !idle, !raised
      {
        ghost var middle := State();
        var more;
        ghost var steps;
        StillCanIssue(c, id, before.tables, middle.tables, since);
        more, idle, raised, steps := Pass(checks(turn), (i: nat) => turns(turn, i), since);
        RunsJoin(c, id, before, ops, steps, |steps|);
        EvolveTransitive(before.tables, middle.tables, store.State());
        ops, sent := ops + steps, sent + more;
        turn := turn + 1;
      }
      MarksOfRun(c, id, before, ops);
      EmissionsAreRecorded(c, id, before, ops, |ops|);
      if !raised {
        NothingLeft(before.tables, store.State(), sent);
      }
    }
  }

  // ----- The worker's steps as a run

  /** Issuing can only succeed or be refused: sound primitives, and jobs from which receipts can be built. */
  ghost predicate CanIssue(c: Crypto, id: Identity, t: Tables, since: int) {
    Sound(c) && IsLowerHex(id.service, 64) && forall d :: d in t.jobs ==> Buildable(c, t.jobs[d].inputs, since)
  }

  lemma StillCanIssue(c: Crypto, id: Identity, t: Tables, t': Tables, since: int)
    requires JobsEvolve(t, t') && t'.jobs.Keys == t.jobs.Keys
    ensures CanIssue(c, id, t, since) ==> CanIssue(c, id, t', since)
  {
    hide Sound, Buildable, IsLowerHex;
    forall d | d in t'.jobs ensures t'.jobs[d].inputs == t.jobs[d].inputs {
      assert RowEvolves(t.jobs[d], t'.jobs[d]);
    }
  }

  lemma IssueIsCalm(c: Crypto, id: Identity, w: World, d: string, rd: Readings, salt: string, since: int)
    requires d in w.tables.jobs
    ensures InRange(rd, since) && CanIssue(c, id, w.tables, since) ==> !Decide(c, id, w, d, rd, salt).1.Failed?
  {
    hide Decide, Sound, Buildable, IsLowerHex, InRange;
    if InRange(rd, since) && CanIssue(c, id, w.tables, since) {
      BuildableNeverFails(c, id, w, d, rd, salt, since);
    }
  }

  /** Every row marked meanwhile has its receipt among those sent. */
  ghost predicate MarkedWereSent(t: Tables, t': Tables, sent: seq<Event>) {
    forall d :: Marked(t', d) && !Marked(t, d) ==> t'.jobs[d].receipt.Some? && t'.jobs[d].receipt.value in sent
  }

  /** Nothing is pending, and every issued receipt not marked before was sent. */
  ghost predicate AllDelivered(t: Tables, t': Tables, sent: seq<Event>) {
    && PendingJobs(t'.jobs) == {}
    && forall d :: d in t'.jobs && t'.jobs[d].state.JobIssued? && !Marked(t, d) ==>
         t'.jobs[d].receipt.Some? && t'.jobs[d].receipt.value in sent
  }

  lemma HeldRow(w: World, d: string)
    requires WorkerOk(w) && d in w.worker.rows
    ensures d in w.tables.jobs && HeldRowOk(w.worker.rows[d], w.tables.jobs[d])
  {
    hide HeldRowOk;
  }

  lemma RestingIsOk(w: World)
    requires w.worker == RESTING
    ensures WorkerOk(w)
  {
  }

  lemma RunKeeps(c: Crypto, id: Identity, w: World, ops: seq<Op>)
    requires JobsOk(w.tables) && WorkerOk(w)
    ensures JobsOk(At(c, id, w, ops, |ops|).tables) && JobsEvolve(w.tables, At(c, id, w, ops, |ops|).tables)
    ensures WorkerOk(At(c, id, w, ops, |ops|))
    ensures w.worker.sent.None? ==>
      MarkedWereSent(w.tables, At(c, id, w, ops, |ops|).tables, Emissions(c, id, w, ops, |ops|))
  {
    hide JobsOk, JobsEvolve, WorkerOk, Next, MarkedWereSent;
    assert At(c, id, w, ops, 0) == w;
    JobsThroughout(c, id, w, ops, 0, |ops|);
    WorkerThroughout(c, id, w, ops, |ops|);
    if w.worker.sent.None? {
      MarksOfRun(c, id, w, ops);
    }
  }

  lemma MarksOfRun(c: Crypto, id: Identity, w: World, ops: seq<Op>)
    requires JobsOk(w.tables) && WorkerOk(w) && w.worker.sent.None?
    ensures MarkedWereSent(w.tables, At(c, id, w, ops, |ops|).tables, Emissions(c, id, w, ops, |ops|))
  {
    hide JobsOk, WorkerOk, At, Emissions, Marked;
    var t' := At(c, id, w, ops, |ops|).tables;
    forall d | Marked(t', d) && !Marked(w.tables, d)
      ensures d in t'.jobs && t'.jobs[d].receipt.Some? && t'.jobs[d].receipt.value in Emissions(c, id, w, ops, |ops|)
    {
      var i, k := MarkedAfterBroadcast(c, id, w, ops, |ops|, d);
      EmittedIsListed(c, id, w, ops, i, |ops|);
      MarkedIsListed(t', d);
    }
  }

  lemma MarkedIsListed(t: Tables, d: string)
    requires Marked(t, d)
    ensures d in t.jobs
  {
  }

  lemma {:induction false} EmittedIsListed(c: Crypto, id: Identity, w: World, ops: seq<Op>, i: nat, n: nat)
    requires i < n <= |ops| && Emitted(At(c, id, w, ops, i), ops[i]).Some?
    ensures Emitted(At(c, id, w, ops, i), ops[i]).value in Emissions(c, id, w, ops, n)
  {
    hide At, Emitted;
    if i < n - 1 {
      EmittedIsListed(c, id, w, ops, i, n - 1);
    }
  }

  /** Everything a run sends is a receipt recorded at its end. */
  lemma {:induction false} EmissionsAreRecorded(c: Crypto, id: Identity, w: World, ops: seq<Op>, n: nat)
    requires JobsOk(w.tables) && WorkerOk(w) && n <= |ops|
    ensures forall e :: e in Emissions(c, id, w, ops, n) ==> Recorded(At(c, id, w, ops, n).tables, e)
  {
    hide JobsOk, JobsEvolve, WorkerOk, Next, Recorded;
    if n > 0 {
      EmissionsAreRecorded(c, id, w, ops, n - 1);
      JobsThroughout(c, id, w, ops, n - 1, n);
      forall e | e in Emissions(c, id, w, ops, n) ensures Recorded(At(c, id, w, ops, n).tables, e) {
        if e in Emissions(c, id, w, ops, n - 1) {
          StaysRecorded(At(c, id, w, ops, n - 1).tables, At(c, id, w, ops, n).tables, e);
        } else {
          BroadcastsAreCommitted(c, id, w, ops, n - 1, n);
          FoundRecorded(At(c, id, w, ops, n).tables, ops[n - 1].digest, e);
        }
      }
    }
  }

  lemma FoundRecorded(t: Tables, d: string, e: Event)
    requires d in t.jobs && t.jobs[d].state.JobIssued? && t.jobs[d].receipt == Some(e)
    ensures Recorded(t, e)
  {
  }

  lemma IssueIsStep(c: Crypto, id: Identity, w: World, d: string, rd: Readings, salt: string, raises: bool)
    requires JobsOk(w.tables) && d in w.tables.jobs
    ensures var op := IssueJob(d, rd, salt, raises);
      At(c, id, w, [op], 1) == Witnessing.Issue(c, id, w, d, rd, salt, raises) && Emissions(c, id, w, [op], 1) == []
      && At(c, id, w, [op], 1).tables.jobs.Keys == w.tables.jobs.Keys
      && Work(At(c, id, w, [op], 1).tables) <= Work(w.tables)
      && (d in PendingJobs(w.tables.jobs) && !raises && !Decide(c, id, w, d, rd, salt).1.Failed? ==>
            Work(At(c, id, w, [op], 1).tables) < Work(w.tables))
  {
    hide Witnessing.Issue, Decide, JobsOk, JobsEvolve, Work;
    var op := IssueJob(d, rd, salt, raises);
    assert At(c, id, w, [op], 0) == w;
    assert Emissions(c, id, w, [op], 0) == [];
    IssueStep(c, id, w, op);
    if raises {
      FailedIssue(c, id, w, d, rd, salt);
    } else {
      IssueWork(c, id, w, d, rd, salt);
    }
  }

  lemma FailedIssue(c: Crypto, id: Identity, w: World, d: string, rd: Readings, salt: string)
    ensures Witnessing.Issue(c, id, w, d, rd, salt, true).tables == w.tables
  {
    hide Decide;
  }

  lemma MarkIsStep(t: Tables, d: string)
    requires d in t.jobs
    ensures UpdateJob(t, d, false).jobs.Keys == t.jobs.Keys
    ensures t.jobs[d].state.JobIssued? ==> Marked(UpdateJob(t, d, false), d)
    ensures Work(UpdateJob(t, d, false)) <= Work(t)
    ensures d in Unsent(t.jobs) ==> Work(UpdateJob(t, d, false)) < Work(t)
  {
    if t.jobs[d].state.JobIssued? {
      RowChangeCounts(t.jobs, d, t.jobs[d].(broadcast := true));
    }
  }

  /** Broadcasting a held row, and then marking it. */
  lemma SendIsRun(c: Crypto, id: Identity, w: World, d: string, receipt: Event, completes: bool)
    requires Sendable(w.worker, d) && w.worker.rows[d].receipt == Some(receipt)
    ensures At(c, id, w, [Send(d, completes)], 1)
      == w.(worker := w.worker.(sent := if completes then Some(d) else None))
    ensures Emissions(c, id, w, [Send(d, completes)], 1) == [receipt]
    ensures At(c, id, w, [Send(d, true), Mark(d)], 2)
      == w.(tables := UpdateJob(w.tables, d, false), worker := w.worker.(sent := None))
    ensures Emissions(c, id, w, [Send(d, true), Mark(d)], 2) == [receipt]
  {
    hide UpdateJob;
    var send, ops := [Send(d, completes)], [Send(d, true), Mark(d)];
    assert At(c, id, w, send, 0) == w && At(c, id, w, ops, 0) == w;
    assert At(c, id, w, ops, 1) == w.(worker := w.worker.(sent := Some(d)));
    assert Emissions(c, id, w, send, 0) == [] && Emissions(c, id, w, ops, 0) == [];
    assert Emissions(c, id, w, ops, 1) == [receipt];
  }

  lemma ReadIsRun(c: Crypto, id: Identity, w: World, check: Readings)
    ensures var ops := [CheckClock(check.wall, check.monotonic), ReadRows];
      At(c, id, w, ops, 2) == Next(c, id, w, ops[0]).(worker := Progress(Snapshot(w.tables), None))
      && Emissions(c, id, w, ops, 2) == []
  {
    hide Snapshot, Advance;
    var ops := [CheckClock(check.wall, check.monotonic), ReadRows];
    assert At(c, id, w, ops, 0) == w;
    assert At(c, id, w, ops, 1) == Next(c, id, w, ops[0]);
    assert Emissions(c, id, w, ops, 0) == [];
    assert Emissions(c, id, w, ops, 1) == [];
  }

  lemma BatchNeedsWork(t: Tables)
    ensures forall d :: d in Batch(t) ==> NeedsWork(t, d) && d in Snapshot(t) && Snapshot(t)[d] == t.jobs[d]
  {
    OutstandingIsComplete(t, t.jobOrder);
    forall d | d in Batch(t) ensures NeedsWork(t, d) {
      assert d in Outstanding(t, t.jobOrder);
    }
  }

  lemma NothingInBatch(t: Tables)
    requires JobsOk(t) && Batch(t) == []
    ensures Work(t) == 0
  {
    hide JobsOk, Work;
    NothingOutstanding(t);
  }

  lemma NothingLeft(t: Tables, t': Tables, sent: seq<Event>)
    requires MarkedWereSent(t, t', sent) && Work(t') == 0
    ensures AllDelivered(t, t', sent)
  {
    forall d | d in t'.jobs && t'.jobs[d].state.JobIssued? && !Marked(t, d)
      ensures t'.jobs[d].receipt.Some? && t'.jobs[d].receipt.value in sent
    {
      assert d !in Unsent(t'.jobs);
    }
  }

  /** The event is the recorded receipt of an issued job. */
  ghost predicate Recorded(t: Tables, e: Event) {
    exists d :: d in t.jobs && t.jobs[d].state.JobIssued? && t.jobs[d].receipt == Some(e)
  }

  lemma StaysRecorded(t: Tables, t': Tables, e: Event)
    requires Recorded(t, e) && JobsEvolve(t, t')
    ensures Recorded(t', e)
  {
    var d :| d in t.jobs && t.jobs[d].state.JobIssued? && t.jobs[d].receipt == Some(e);
    assert RowEvolves(t.jobs[d], t'.jobs[d]);
  }

  lemma NothingOutstanding(t: Tables)
    requires JobsOk(t) && Outstanding(t, t.jobOrder) == []
    ensures Work(t) == 0
  {
    OutstandingIsComplete(t, t.jobOrder);
    assert PendingJobs(t.jobs) == {} by {
      if d :| d in PendingJobs(t.jobs) {
        assert NeedsWork(t, d);
      }
    }
    assert Unsent(t.jobs) == {} by {
      if d :| d in Unsent(t.jobs) {
        assert NeedsWork(t, d);
      }
    }
  }

  lemma IssueWork(c: Crypto, id: Identity, w: World, d: string, rd: Readings, salt: string)
    ensures var after := Witnessing.Issue(c, id, w, d, rd, salt, false);
      Work(after.tables) <= Work(w.tables)
      && (d in PendingJobs(w.tables.jobs) && !Decide(c, id, w, d, rd, salt).1.Failed? ==>
        Work(after.tables) < Work(w.tables))
  {
    hide Work, SaveTables, UpdateJob, ViewOk, GatesOpen, ReceiptOk, ReceiptFor, JobIsCurrent, Advance, Reading;
    if d in PendingJobs(w.tables.jobs) && !Decide(c, id, w, d, rd, salt).1.Failed? {
      HandlingProgresses(c, id, w, IssueJob(d, rd, salt, false));
    }
  }
}
