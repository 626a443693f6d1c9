/** Safety over whole runs. */
module RunTheorems {
  import opened Text
  import opened Events
  import opened Ordering
  import opened Store
  import opened Lifecycle
  import opened LifecycleRuns
  import opened Clock
  import opened Receipts
  import opened Witnessing
  import opened WitnessingFacts
  import opened Runs

  // ----- Jobs

  /** At every moment of a run the job table is in order, and between any two moments inputs stay the same,
      terminal states stay, and at most one receipt is ever recorded for a digest. */
  lemma {:induction false} JobsThroughout(c: Crypto, id: Identity, w: World, ops: seq<Op>, i: nat, j: nat)
    requires JobsOk(w.tables) && i <= j <= |ops|
    ensures JobsOk(At(c, id, w, ops, j).tables)
    ensures JobsEvolve(At(c, id, w, ops, i).tables, At(c, id, w, ops, j).tables)
    decreases j
  {
    hide JobsOk, Next;
    if i < j {
      JobsThroughout(c, id, w, ops, i, j - 1);
      Step(c, id, At(c, id, w, ops, j - 1), ops[j - 1]);
      EvolveTransitive(At(c, id, w, ops, i).tables, At(c, id, w, ops, j - 1).tables, At(c, id, w, ops, j).tables);
    } else if j > 0 {
      JobsThroughout(c, id, w, ops, j - 1, j - 1);
      Step(c, id, At(c, id, w, ops, j - 1), ops[j - 1]);
    }
  }

  lemma EvolveTransitive(t: Tables, u: Tables, v: Tables)
    requires JobsEvolve(t, u) && JobsEvolve(u, v)
    ensures JobsEvolve(t, v)
  {
    forall d | d in t.jobs ensures d in v.jobs && RowEvolves(t.jobs[d], v.jobs[d]) {
      assert d in u.jobs && RowEvolves(t.jobs[d], u.jobs[d]) && RowEvolves(u.jobs[d], v.jobs[d]);
    }
  }

  /** Operation i filed job d: it was not there before, and it never changes after. */
  ghost predicate FiledAt(c: Crypto, id: Identity, w: World, ops: seq<Op>, i: nat, d: string, job: Job)
    requires i < |ops|
  {
    d !in At(c, id, w, ops, i).tables.jobs && d == job.digest && Acquires(c, id, At(c, id, w, ops, i), ops[i], job)
  }

  /** Operation j committed receipt for job d, which was pending. */
  ghost predicate IssuedAt(c: Crypto, id: Identity, w: World, ops: seq<Op>, j: nat, d: string, job: Job, receipt: Event)
    requires j < |ops|
  {
    d in At(c, id, w, ops, j).tables.jobs && At(c, id, w, ops, j).tables.jobs[d].inputs == job
    && Commits(c, id, At(c, id, w, ops, j), ops[j], d, receipt)
  }

  lemma {:induction false} JobWasFiled(c: Crypto, id: Identity, w: World, ops: seq<Op>, n: nat, d: string)
    returns (i: nat)
    requires JobsOk(w.tables) && w.tables.jobs == map[] && n <= |ops|
    requires d in At(c, id, w, ops, n).tables.jobs
    ensures i < n && FiledAt(c, id, w, ops, i, d, At(c, id, w, ops, n).tables.jobs[d].inputs)
    ensures d in At(c, id, w, ops, i + 1).tables.jobs
  {
    hide JobsOk, Next, Acquires, Commits, JobsEvolve;
    assert n > 0;
    JobsThroughout(c, id, w, ops, n - 1, n - 1);
    Step(c, id, At(c, id, w, ops, n - 1), ops[n - 1]);
    if d in At(c, id, w, ops, n - 1).tables.jobs {
      i := JobWasFiled(c, id, w, ops, n - 1, d);
      KeepsInputs(At(c, id, w, ops, n - 1).tables, At(c, id, w, ops, n).tables, d);
    } else {
      i := n - 1;
    }
  }

  lemma KeepsInputs(t: Tables, t': Tables, d: string)
    requires JobsEvolve(t, t') && d in t.jobs
    ensures d in t'.jobs && t'.jobs[d].inputs == t.jobs[d].inputs
    ensures t.jobs[d].state.JobIssued? ==> t'.jobs[d].state.JobIssued? && t'.jobs[d].receipt == t.jobs[d].receipt
  {
  }

  lemma {:induction false} ReceiptWasCommitted(c: Crypto, id: Identity, w: World, ops: seq<Op>, n: nat, d: string)
    returns (j: nat)
    requires JobsOk(w.tables) && w.tables.jobs == map[] && n <= |ops|
    requires d in At(c, id, w, ops, n).tables.jobs && At(c, id, w, ops, n).tables.jobs[d].state.JobIssued?
    ensures j < n && At(c, id, w, ops, n).tables.jobs[d].receipt.Some?
    ensures IssuedAt(c, id, w, ops, j, d, At(c, id, w, ops, n).tables.jobs[d].inputs,
      At(c, id, w, ops, n).tables.jobs[d].receipt.value)
  {
    hide JobsOk, Next, Acquires, Commits, JobsEvolve;
    assert n > 0;
    var before := At(c, id, w, ops, n - 1);
    JobsThroughout(c, id, w, ops, n - 1, n - 1);
    Step(c, id, before, ops[n - 1]);
    if d in before.tables.jobs && before.tables.jobs[d].state.JobIssued? {
      j := ReceiptWasCommitted(c, id, w, ops, n - 1, d);
      KeepsInputs(before.tables, At(c, id, w, ops, n).tables, d);
    } else {
      j := n - 1;
      CommitsKnownJob(c, id, before, ops[n - 1], d, At(c, id, w, ops, n).tables.jobs[d].receipt.value);
      KeepsInputs(before.tables, At(c, id, w, ops, n).tables, d);
    }
  }

  lemma CommitsKnownJob(c: Crypto, id: Identity, w: World, op: Op, d: string, receipt: Event)
    requires Commits(c, id, w, op, d, receipt)
    ensures d in w.tables.jobs
  {
    hide ViewOk, GatesOpen, ReceiptOk;
  }

  /** If no submission of a run was checked later than second `since` or carried a time before the epoch, then
      from every job filed a receipt can be built at any later second. */
  lemma FiledJobsAreBuildable(c: Crypto, id: Identity, w: World, ops: seq<Op>, n: nat, since: int)
    requires Sound(c) && JobsOk(w.tables) && w.tables.jobs == map[] && n <= |ops|
    requires forall op :: op in ops && op.Submit? ==> op.rd.checkAt <= since && 0 <= ToMillis(op.rd.wall)
    ensures forall d :: d in At(c, id, w, ops, n).tables.jobs ==>
      Buildable(c, At(c, id, w, ops, n).tables.jobs[d].inputs, since)
  {
    hide JobsOk, Next, Sound, Observe, ToMillis, InForce, Buildable;
    forall d | d in At(c, id, w, ops, n).tables.jobs
      ensures Buildable(c, At(c, id, w, ops, n).tables.jobs[d].inputs, since)
    {
      var job := At(c, id, w, ops, n).tables.jobs[d].inputs;
      var i := JobWasFiled(c, id, w, ops, n, d);
      var r, sample := ObservedInForce(c, id, At(c, id, w, ops, i), ops[i].event, ops[i].rd);
      SampledUncertainty(At(c, id, w, ops, i), ops[i].rd);
      FiledIsBuildable(c, id, At(c, id, w, ops, i), ops[i].event, ops[i].rd);
      BuildableStays(c, job, ops[i].rd.checkAt, since);
    }
  }

  /** At most one operation of a run commits a receipt for a digest. */
  lemma CommitOnce(c: Crypto, id: Identity, w: World, ops: seq<Op>, i: nat, j: nat, d: string, first: Event,
    other: Event)
    requires JobsOk(w.tables) && i <= j < |ops|
    requires Commits(c, id, At(c, id, w, ops, i), ops[i], d, first)
    requires Commits(c, id, At(c, id, w, ops, j), ops[j], d, other)
    ensures i == j && first == other
  {
    hide JobsOk, JobsEvolve, Next, Commits, Decide;
    CommitIsPending(c, id, At(c, id, w, ops, i), ops[i], d, first);
    CommitIsPending(c, id, At(c, id, w, ops, j), ops[j], d, other);
    if i < j {
      var before, after := At(c, id, w, ops, i), At(c, id, w, ops, i + 1);
      JobsThroughout(c, id, w, ops, i, i);
      CommitIssues(c, id, before, ops[i], d, first);
      JobsThroughout(c, id, w, ops, i + 1, j);
      KeepsInputs(after.tables, At(c, id, w, ops, j).tables, d);
    }
  }

  lemma CommitIsPending(c: Crypto, id: Identity, w: World, op: Op, d: string, receipt: Event)
    requires Commits(c, id, w, op, d, receipt)
    ensures d in w.tables.jobs && w.tables.jobs[d].state.JobPending?
    ensures op.IssueJob? && Decide(c, id, w, d, op.rd, op.salt).1 == Issued(receipt)
  {
    hide ViewOk, GatesOpen, ReceiptOk;
  }

  lemma CommitIssues(c: Crypto, id: Identity, w: World, op: Op, d: string, receipt: Event)
    requires JobsOk(w.tables) && Commits(c, id, w, op, d, receipt)
    ensures d in Next(c, id, w, op).tables.jobs
    ensures Next(c, id, w, op).tables.jobs[d].state.JobIssued?
      && Next(c, id, w, op).tables.jobs[d].receipt == Some(receipt)
  {
    hide JobsOk, JobsEvolve, Decide, SaveTables, InForce, JobIsCurrent, ReceiptOk, ReceiptFor;
    var r, sample := IssuedInForce(c, id, w, d, op.rd, op.salt);
    FinishJob(w.tables, receipt, d);
  }

  // ----- Authority

  lemma {:induction false} LedgerAppends(c: Crypto, id: Identity, w: World, ops: seq<Op>, i: nat, j: nat)
    requires i <= j <= |ops|
    ensures History(At(c, id, w, ops, i).ledger) <= History(At(c, id, w, ops, j).ledger)
    decreases j
  {
    hide Apply, Accept, Issue, History;
    if i < j {
      LedgerAppends(c, id, w, ops, i, j - 1);
      var before := At(c, id, w, ops, j - 1);
      if ops[j - 1].Administer? {
        AppendsPrefix(c, id, before.ledger, ops[j - 1].cmd);
      }
      LedgerMovesByCommand(c, id, before, ops[j - 1]);
    }
  }

  lemma LedgerMovesByCommand(c: Crypto, id: Identity, w: World, op: Op)
    ensures Next(c, id, w, op).ledger == if op.Administer? then Apply(c, id, w.ledger, op.cmd) else w.ledger
  {
    hide Apply, Observe, Decide, SaveTables, UpdateJob;
  }

  lemma AppendsPrefix(c: Crypto, id: Identity, l: Ledger, cmd: Command)
    ensures History(l) <= History(Apply(c, id, l, cmd))
  {
    hide Apply, History;
    ApplyAppends(c, id, l, cmd);
  }

  /** Two heads with one id are one entry at one place: nothing was appended between them. */
  lemma SameHead(c: Crypto, id: Identity, h: seq<Entry>, t: int, h': seq<Entry>, t': int, r: GrantRecord,
    r': GrantRecord)
    requires ChainOk(c, id, h, t) && ChainOk(c, id, h', t') && h <= h'
    requires h != [] && h[|h| - 1] == Grant(r) && h' != [] && h'[|h'| - 1] == Grant(r')
    requires r.authorization.id == r'.authorization.id
      && !IdCollision(c, r.authorization.Payload(), r'.authorization.Payload())
    ensures h == h' && r == r'
  {
    hide ChainOk, RecordOk, IsLowerHex;
    EntryShape(c, id, h, t, |h| - 1);
    EntryShape(c, id, h', t', |h'| - 1);
    assert r.authorization.Payload() == r'.authorization.Payload();
    assert |h| == |h'|;
  }

  /** No two lifecycle events of a history are different payloads with one id. */
  ghost predicate NoIdCollisions(c: Crypto, h: seq<Entry>) {
    forall i, j :: 0 <= i < |h| && 0 <= j < |h| ==> !IdCollision(c, EventOf(h[i]).Payload(), EventOf(h[j]).Payload())
  }

  lemma HeadsDoNotCollide(c: Crypto, wi: World, wj: World, last: Ledger,
    r: GrantRecord, viewAt: int, observed: Sample, r': GrantRecord, viewAt': int, issued: Sample)
    requires NoIdCollisions(c, History(last)) && History(wi.ledger) <= History(wj.ledger) <= History(last)
    requires InForce(wi.ledger, wi.settings, r, viewAt, observed)
      && InForce(wj.ledger, wj.settings, r', viewAt', issued)
    ensures !IdCollision(c, r.authorization.Payload(), r'.authorization.Payload())
  {
    hide History, Markers, Within, IdCollision;
    var h := History(last);
    assert EventOf(h[|History(wi.ledger)| - 1]) == r.authorization
      && EventOf(h[|History(wj.ledger)| - 1]) == r'.authorization;
  }

  /** The receipt's claims, tied to the two moments at which they were established. */
  ghost predicate AuthorizedAtBoth(c: Crypto, id: Identity, w: World, ops: seq<Op>, i: nat, j: nat, d: string,
    receipt: Event, r: GrantRecord, observed: Sample, issued: Sample)
    requires i < j < |ops| && ops[i].Submit? && ops[j].IssueJob?
  {
    var wi, wj := At(c, id, w, ops, i), At(c, id, w, ops, j);
    && SampleAt(c, id, w, ops, i) == Some(observed) && SampleAt(c, id, w, ops, j) == Some(issued)
    && (observed.uncertainty.Some? <==> wi.settings.mode.Bounded?)
    && (issued.uncertainty.Some? <==> wj.settings.mode.Bounded?)
    && InForce(wi.ledger, wi.settings, r, ops[i].rd.viewAt, observed)
    && InForce(wj.ledger, wj.settings, r, ops[j].rd.viewAt, issued)
    && History(wi.ledger) == History(wj.ledger)
    && ops[i].event.kind in r.authorization.content.grant.kinds
    && ops[j].digest == d && ReceiptOk(c, receipt, ops[i].event, ops[j].rd.checkAt)
    && var b := receipt.content.receipt;
    && b.eventId == ops[i].event.id && b.digest == d
    && b.authorizationId == r.authorization.id
    && b.policyDigest == r.authorization.content.grant.policyDigest == c.policyDigest(r.policy)
    && b.version == VersionOf(wi.settings.mode) && wi.settings.mode == wj.settings.mode
    && b.observedAt == observed.now && b.uncertainty == observed.uncertainty && b.issuedAt == issued.now
    && 0 <= b.issuedAt - b.observedAt <= wj.settings.maxDelay * 1000
    && (b.version != 1 ==> b.issuedAt - b.observedAt <= 60000)
  }

  /** The facts established at the two moments, put together. */
  lemma BothMoments(c: Crypto, id: Identity, w: World, ops: seq<Op>, i: nat, j: nat, d: string, job: Job,
    receipt: Event, r: GrantRecord, observed: Sample, issued: Sample)
    requires i < j < |ops| && ops[i].Submit? && ops[j].IssueJob? && ops[j].digest == d
    requires SampleAt(c, id, w, ops, i) == Some(observed) && SampleAt(c, id, w, ops, j) == Some(issued)
    requires InForce(At(c, id, w, ops, i).ledger, At(c, id, w, ops, i).settings, r, ops[i].rd.viewAt, observed)
    requires InForce(At(c, id, w, ops, j).ledger, At(c, id, w, ops, j).settings, r, ops[j].rd.viewAt, issued)
    requires History(At(c, id, w, ops, i).ledger) == History(At(c, id, w, ops, j).ledger)
    requires Readable(r) && JobClaims(c, id, job, At(c, id, w, ops, i).settings, r, observed)
    requires job.subject == ops[i].event && job.digest == d
    requires JobIsCurrent(id, job, r, At(c, id, w, ops, j).settings, issued.now)
    requires receipt == ReceiptFor(c, id, job, issued.now, ops[j].salt)
      && ReceiptOk(c, receipt, job.subject, ops[j].rd.checkAt)
    ensures AuthorizedAtBoth(c, id, w, ops, i, j, d, receipt, r, observed, issued)
  {
    hide At, History, Markers, Within, ReceiptOk, ReceiptTags, IsLowerHex, Sampled;
    VersionIsInjective(At(c, id, w, ops, i).settings.mode, At(c, id, w, ops, j).settings.mode);
    UncertaintyAt(c, id, w, ops, i);
    UncertaintyAt(c, id, w, ops, j);
  }

  lemma UncertaintyAt(c: Crypto, id: Identity, w: World, ops: seq<Op>, k: nat)
    requires k < |ops| && (ops[k].Submit? || ops[k].IssueJob?) && SampleAt(c, id, w, ops, k).Some?
    ensures var sample := SampleAt(c, id, w, ops, k).value;
      (sample.uncertainty.Some? <==> At(c, id, w, ops, k).settings.mode.Bounded?)
      && (sample.uncertainty.Some? ==> 0 <= sample.uncertainty.value <= 1000)
  {
    hide At, Sampled;
    SampledUncertainty(At(c, id, w, ops, k), ops[k].rd);
  }

  lemma VersionIsInjective(a: Mode, b: Mode)
    requires VersionOf(a) == VersionOf(b)
    ensures a == b
  {
  }

  /** End-to-end safety, over every interleaving with crashes, changed settings and arbitrary clocks: each
      recorded receipt names one grant that was the unrevoked, unsuspended head of the chain, in its window,
      under a policy marked for the receipt's version, both when its subject was observed and when the
      receipt was issued; the subject's kind is one the grant covers. The one assumption is that no two
      lifecycle events of the relay's own history collide. */
  lemma AuthorizedTwice(c: Crypto, id: Identity, w: World, ops: seq<Op>, n: nat, d: string)
    returns (i: nat, j: nat, r: GrantRecord, observed: Sample, issued: Sample)
    requires JobsOk(w.tables) && w.tables.jobs == map[] && n <= |ops|
    requires NoIdCollisions(c, History(At(c, id, w, ops, n).ledger))
    requires d in At(c, id, w, ops, n).tables.jobs && At(c, id, w, ops, n).tables.jobs[d].state.JobIssued?
    ensures At(c, id, w, ops, n).tables.jobs[d].receipt.Some?
    ensures i < j < n && ops[i].Submit? && ops[j].IssueJob?
    ensures AuthorizedAtBoth(c, id, w, ops, i, j, d, At(c, id, w, ops, n).tables.jobs[d].receipt.value, r, observed,
      issued)
  {
    hide JobsOk, JobsEvolve, Next, InForce, Observe, Decide, ReceiptOk, RecordOk, History, NoIdCollisions,
      AuthorizedAtBoth, JobClaims, JobIsCurrent, ReceiptFor, Sampled;
    var row := At(c, id, w, ops, n).tables.jobs[d];
    i := JobWasFiled(c, id, w, ops, n, d);
    j := ReceiptWasCommitted(c, id, w, ops, n, d);
    if j <= i {
      JobsThroughout(c, id, w, ops, j, i);
      KeepsInputs(At(c, id, w, ops, j).tables, At(c, id, w, ops, i).tables, d);
    }
    var wi, wj := At(c, id, w, ops, i), At(c, id, w, ops, j);
    r, observed := ObservedInForce(c, id, wi, ops[i].event, ops[i].rd);
    var r';
    r', issued := IssuedInForce(c, id, wj, d, ops[j].rd, ops[j].salt);
    LedgerAppends(c, id, w, ops, i, j);
    LedgerAppends(c, id, w, ops, j, n);
    HeadsDoNotCollide(c, wi, wj, At(c, id, w, ops, n).ledger, r, ops[i].rd.viewAt, observed, r', ops[j].rd.viewAt,
      issued);
    ClaimsNameTheGrant(c, id, row.inputs, wi, r, observed, wj, r', issued);
    SameGrant(c, id, wi, ops[i].rd, observed, r, wj, ops[j].rd, issued, r', ops[i].event, ops[j].salt, d);
    BothMoments(c, id, w, ops, i, j, d, row.inputs, row.receipt.value, r, observed, issued);
  }

  lemma ClaimsNameTheGrant(c: Crypto, id: Identity, job: Job, wi: World, r: GrantRecord, observed: Sample,
    wj: World, r': GrantRecord, issued: Sample)
    requires Readable(r) && JobClaims(c, id, job, wi.settings, r, observed)
    requires JobIsCurrent(id, job, r', wj.settings, issued.now)
    ensures r.authorization.id == r'.authorization.id
  {
    hide IsLowerHex;
  }

  lemma SameGrant(c: Crypto, id: Identity, wi: World, rd: Readings, observed: Sample, r: GrantRecord,
    wj: World, rd': Readings, issued: Sample, r': GrantRecord, e: Event, salt: string, d: string)
    requires History(wi.ledger) <= History(wj.ledger)
    requires !IdCollision(c, r.authorization.Payload(), r'.authorization.Payload())
    requires Observe(c, id, wi, e, rd).1.Some? && Decide(c, id, wj, d, rd', salt).1.Issued?
    requires InForce(wi.ledger, wi.settings, r, rd.viewAt, observed)
      && InForce(wj.ledger, wj.settings, r', rd'.viewAt, issued)
    requires r.authorization.id == r'.authorization.id
    ensures r == r' && History(wi.ledger) == History(wj.ledger)
  {
    hide IdCollision, History, GatesOpen, ReceiptOk, ChainOk, Within, Markers, SignedEventDigest;
    SameHead(c, id, History(wi.ledger), rd.viewAt, History(wj.ledger), rd'.viewAt, r, r');
  }

  /** What the clock reported to operation k. */
  function SampleAt(c: Crypto, id: Identity, w: World, ops: seq<Op>, k: nat): Option<Sample>
    requires k < |ops| && (ops[k].Submit? || ops[k].IssueJob?)
  {
    Sampled(At(c, id, w, ops, k), ops[k].rd)
  }

  /** True time, in milliseconds, lies within the uncertainty a sample states. */
  predicate Covers(sample: Sample, trueTime: real) {
    sample.uncertainty.Some? ==> Abs(trueTime - sample.now as real) <= sample.uncertainty.value as real
  }

  /** The monitor told the truth: whenever the clock reported, true time was within the stated uncertainty. */
  ghost predicate MonitorIsTruthful(c: Crypto, id: Identity, w: World, ops: seq<Op>, n: nat, trueTime: nat -> real)
    requires n <= |ops|
  {
    forall k :: 0 <= k < n && (ops[k].Submit? || ops[k].IssueJob?) && SampleAt(c, id, w, ops, k).Some? ==>
      Covers(SampleAt(c, id, w, ops, k).value, trueTime(k))
  }

  /** The window of a grant, in milliseconds of true time. */
  predicate InWindow(r: GrantRecord, trueTime: real)
    requires Readable(r)
  {
    (OpensAt(r) * 1000) as real <= trueTime < (r.request.content.request.notAfter * 1000) as real
  }

  /** The window test of the witness, exactly: with an uncertainty it passes if and only if every time within that
      uncertainty of the reading lies in the window, and without one if and only if the reading does. */
  lemma WithinIff(r: GrantRecord, sample: Sample)
    requires Readable(r) && (sample.uncertainty.Some? ==> 0 <= sample.uncertainty.value)
    ensures sample.uncertainty.Some? ==>
      (Within(r, sample) <==> forall t: real :: Covers(sample, t) ==> InWindow(r, t))
    ensures sample.uncertainty.None? ==> (Within(r, sample) <==> InWindow(r, sample.now as real))
  {
    if sample.uncertainty.Some? {
      var early, late := (sample.now - sample.uncertainty.value) as real,
        (sample.now + sample.uncertainty.value) as real;
      assert Covers(sample, early) && Covers(sample, late);
      if Within(r, sample) {
        forall t: real | Covers(sample, t) ensures InWindow(r, t) {
          CoveredIsInWindow(r, sample, t);
        }
      } else {
        assert !InWindow(r, early) || !InWindow(r, late);
      }
    }
  }

  lemma CoveredIsInWindow(r: GrantRecord, sample: Sample, trueTime: real)
    requires Readable(r) && Within(r, sample) && sample.uncertainty.Some? && Covers(sample, trueTime)
    ensures InWindow(r, trueTime)
  {
    var u := sample.uncertainty.value;
    assert (OpensAt(r) * 1000) as real <= (sample.now - u) as real;
    assert (sample.now + u) as real < (r.request.content.request.notAfter * 1000) as real;
  }

  /** Bounded mode, over whole runs: whenever a recorded receipt of version 1 exists and the monitor told the
      truth, its subject was observed and the receipt was issued at true times inside the window of the grant
      it names, and truly no further apart than the configured delay and the two uncertainties. */
  lemma TrueTimesInWindow(c: Crypto, id: Identity, w: World, ops: seq<Op>, n: nat, d: string, trueTime: nat -> real)
    returns (i: nat, j: nat, r: GrantRecord)
    requires JobsOk(w.tables) && w.tables.jobs == map[] && n <= |ops|
    requires NoIdCollisions(c, History(At(c, id, w, ops, n).ledger))
    requires d in At(c, id, w, ops, n).tables.jobs && At(c, id, w, ops, n).tables.jobs[d].state.JobIssued?
    requires MonitorIsTruthful(c, id, w, ops, n, trueTime)
    ensures i < j < n && ops[i].Submit? && ops[j].IssueJob? && Readable(r)
    ensures var receipt := At(c, id, w, ops, n).tables.jobs[d].receipt;
      receipt.Some? && receipt.value.content.ReceiptContent?
      && var b := receipt.value.content.receipt;
         b.eventId == ops[i].event.id && ops[j].digest == d && b.authorizationId == r.authorization.id
         && (b.version == 1 ==>
               InWindow(r, trueTime(i)) && InWindow(r, trueTime(j))
               && trueTime(j) - trueTime(i) <= (At(c, id, w, ops, j).settings.maxDelay * 1000 + 2000) as real)
  {
    var observed, issued;
    i, j, r, observed, issued := AuthorizedTwice(c, id, w, ops, n, d);
    hide JobsOk, Next, NoIdCollisions, History, Markers, ReceiptOk, Within, Abs, Covers, InWindow;
    UncertaintyAt(c, id, w, ops, i);
    UncertaintyAt(c, id, w, ops, j);
    if At(c, id, w, ops, i).settings.mode.Bounded? {
      assert Covers(SampleAt(c, id, w, ops, i).value, trueTime(i));
      assert Covers(SampleAt(c, id, w, ops, j).value, trueTime(j));
      CoveredIsInWindow(r, observed, trueTime(i));
      CoveredIsInWindow(r, issued, trueTime(j));
      TrueDelay(observed, issued, trueTime(i), trueTime(j), At(c, id, w, ops, j).settings.maxDelay * 1000);
    }
  }

  lemma TrueDelay(observed: Sample, issued: Sample, trueObserved: real, trueIssued: real, delay: int)
    requires observed.uncertainty.Some? && observed.uncertainty.value <= 1000 && Covers(observed, trueObserved)
    requires issued.uncertainty.Some? && issued.uncertainty.value <= 1000 && Covers(issued, trueIssued)
    requires issued.now - observed.now <= delay
    ensures trueIssued - trueObserved <= (delay + 2000) as real
  {
    var u, v := observed.uncertainty.value as real, issued.uncertainty.value as real;
    assert trueIssued <= issued.now as real + v && observed.now as real - u <= trueObserved;
    assert (issued.now - observed.now) as real <= delay as real;
  }

  // ----- The queue

  /** No operation raises the number of pending jobs above the queue limit in force. */
  lemma PendingStep(c: Crypto, id: Identity, w: World, op: Op, limit: nat)
    requires JobsOk(w.tables) && w.settings.queueLimit <= limit && |PendingJobs(w.tables.jobs)| <= limit
    ensures |PendingJobs(Next(c, id, w, op).tables.jobs)| <= limit
  {
    hide JobsOk, Observe, Decide, ReceiptOk;
    var t, t' := w.tables, Next(c, id, w, op).tables;
    if op.Submit? && !op.raises && EventFits(op.event) {
      var job := Observe(c, id, w, op.event, op.rd).1;
      SaveJobs(t, op.event, job, w.settings.queueLimit, None);
      if job.Some? {
        EnqueuePending(t, job.value, w.settings.queueLimit);
      }
    } else {
      assert PendingJobs(t'.jobs) <= PendingJobs(t.jobs) by {
        NoNewPending(c, id, w, op);
      }
      SubsetSize(PendingJobs(t'.jobs), PendingJobs(t.jobs));
    }
  }

  lemma NoNewPending(c: Crypto, id: Identity, w: World, op: Op)
    requires op.Submit? ==> op.raises || !EventFits(op.event)
    ensures PendingJobs(Next(c, id, w, op).tables.jobs) <= PendingJobs(w.tables.jobs)
  {
    hide Observe, Decide, Apply, SaveTables;
    match op
    case IssueJob(d, rd, salt, raises) =>
      var outcome := Decide(c, id, w, d, rd, salt).1;
      if outcome.Issued? {
        SaveJobs(w.tables, outcome.receipt, None, 1000, Some(d));
      }
    case _ =>
  }

  lemma PendingOfNewRow(jobs: map<string, JobRow>, d: string, row: JobRow)
    requires d !in jobs
    ensures PendingJobs(jobs[d := row]) == if row.state.JobPending? then PendingJobs(jobs) + {d} else PendingJobs(jobs)
    ensures d !in PendingJobs(jobs)
  {
  }

  lemma EnqueuePending(t: Tables, job: Job, queueLimit: int)
    ensures |PendingJobs(EnqueueJob(t, Some(job), queueLimit).jobs)| <= Max(|PendingJobs(t.jobs)|, queueLimit)
  {
    hide PendingJobs;
    if job.digest !in t.jobs {
      PendingOfNewRow(t.jobs, job.digest, EnqueueJob(t, Some(job), queueLimit).jobs[job.digest]);
    }
  }

  /** If no settings of a run exceed a queue limit, the pending jobs never do. */
  lemma {:induction false} QueueIsBounded(c: Crypto, id: Identity, w: World, ops: seq<Op>, n: nat, limit: nat)
    requires JobsOk(w.tables) && |PendingJobs(w.tables.jobs)| <= limit && n <= |ops|
    requires w.settings.queueLimit <= limit
    requires forall op :: op in ops && op.Restart? ==> op.settings.queueLimit <= limit
    ensures |PendingJobs(At(c, id, w, ops, n).tables.jobs)| <= limit
    ensures At(c, id, w, ops, n).settings.queueLimit <= limit
  {
    hide JobsOk, Next, PendingJobs, JobsEvolve;
    if n > 0 {
      QueueIsBounded(c, id, w, ops, n - 1, limit);
      JobsThroughout(c, id, w, ops, n - 1, n - 1);
      PendingStep(c, id, At(c, id, w, ops, n - 1), ops[n - 1], limit);
      SettingsMoveByRestart(c, id, At(c, id, w, ops, n - 1), ops[n - 1]);
    }
  }

  lemma SettingsMoveByRestart(c: Crypto, id: Identity, w: World, op: Op)
    ensures Next(c, id, w, op).settings == if op.Restart? then op.settings else w.settings
  {
    hide Apply, Observe, Decide, SaveTables, UpdateJob;
  }
}
