/** Automatic witnessing: what accepting a subject observes, and what issuing its receipt demands. */
module Witnessing {
  import opened Text
  import opened Events
  import opened Store
  import opened Lifecycle
  import opened Clock
  import opened Receipts

  /** Runtime settings; limits are positive by construction of the configuration. */
  datatype Settings = Settings(mode: Mode, queueLimit: int, maxDelay: int)

  /** What one call reads from its surroundings: the second at which stored evidence is checked, the
      second at which events are validated, the clocks, and the monitor's file. */
  datatype Readings = Readings(viewAt: int, checkAt: int, wall: real, monotonic: real, health: Health)

  /** Where the worker stands: the rows it has read, as they were then, and the row whose receipt it has
      broadcast but not yet marked. */
  datatype Progress = Progress(rows: map<string, JobRow>, sent: Option<string>)

  const RESTING := Progress(map[], None)

  datatype World = World(
    tables: Tables, ledger: Ledger, clock: ClockState, settings: Settings, worker: Progress)

  function VersionOf(mode: Mode): int {
    match mode
    case Bounded => 1
    case Operational => 2
    case System => 3
  }

  const MARKER_PREFIX := "Spurline-Clock-Profile:"
  const OPERATIONAL_MARKER := "Spurline-Clock-Profile: operational-v1"
  const SYSTEM_MARKER := "Spurline-Clock-Profile: system-v1"

  /** The clock-profile lines of a policy. */
  function Markers(policy: string): set<string> {
    set line | line in Lines(policy) && MARKER_PREFIX <= line
  }

  function ExpectedMarkers(mode: Mode): set<string> {
    match mode
    case Bounded => {}
    case Operational => {OPERATIONAL_MARKER}
    case System => {SYSTEM_MARKER}
  }

  predicate PolicyAllowsMode(policy: string, settings: Settings) {
    Markers(policy) == ExpectedMarkers(settings.mode) && (settings.mode.Bounded? || settings.maxDelay <= 60)
  }

  /** Evidence whose documents have been read. */
  predicate Readable(r: GrantRecord) {
    r.request.content.RequestContent? && r.authorization.content.GrantContent?
  }

  function OpensAt(r: GrantRecord): int
    requires Readable(r)
  {
    Max(r.authorization.content.grant.issuedAt, r.request.content.request.notBefore)
  }

  /** _within: the sampled interval, or the bare local time, lies inside the grant's window. */
  predicate Within(r: GrantRecord, sample: Sample)
    requires Readable(r)
  {
    var opens, closes := OpensAt(r) * 1000, r.request.content.request.notAfter * 1000;
    match sample.uncertainty
    case None => opens <= sample.now < closes
    case Some(u) => opens <= sample.now - u && sample.now + u < closes
  }

  lemma ViewedGrantIsReadable(c: Crypto, id: Identity, l: Ledger, now: int)
    requires ViewOk(c, id, l, now) && ViewOf(c, id, l, now).grant.Some?
    ensures Readable(ViewOf(c, id, l, now).grant.value)
  {
    hide ChainOk, ValidEvent, HasTags;
    LatestGrantIsOk(c, id, History(l), now);
  }

  /** The gates common to acquisition and issuance, given a view that checked out. */
  predicate GatesOpen(c: Crypto, id: Identity, w: World, rd: Readings, sample: Sample)
    requires ViewOk(c, id, w.ledger, rd.viewAt)
  {
    var view := ViewOf(c, id, w.ledger, rd.viewAt);
    view.Permitted() && view.grant.Some?
    && (ViewedGrantIsReadable(c, id, w.ledger, rd.viewAt);
        PolicyAllowsMode(view.grant.value.policy, w.settings) && Within(view.grant.value, sample))
  }

  // ----- Accepting

  /** The clock after accept looked at an event, and the job it files if it may be witnessed. */
  function Observe(c: Crypto, id: Identity, w: World, e: Event, rd: Readings): (ClockState, Option<Job>) {
    var digest := SignedEventDigest(c, e, rd.checkAt);
    if !SupportedKind(e.kind) || digest.None? || !ViewOk(c, id, w.ledger, rd.viewAt) then (w.clock, None)
    else
      var clock := Advance(w.clock, rd.wall, rd.monotonic);
      var sample := Reading(clock, w.settings.mode, rd.health);
      if sample.None? || !GatesOpen(c, id, w, rd, sample.value) then (clock, None)
      else
        ViewedGrantIsReadable(c, id, w.ledger, rd.viewAt);
        var r := ViewOf(c, id, w.ledger, rd.viewAt).grant.value;
        if e.kind !in r.request.content.request.kinds then (clock, None)
        else (clock, Some(Job(e, digest.value, VersionOf(w.settings.mode), sample.value.now, sample.value.uncertainty,
                              r.authorization.id, r.request.content.request.policyDigest, id.service)))
  }

  /** The world after accept committed, or after its storage transaction raised. */
  function Accept(c: Crypto, id: Identity, w: World, e: Event, rd: Readings, raises: bool): World {
    var (clock, job) := Observe(c, id, w, e, rd);
    w.(clock := clock,
       tables := if raises || !EventFits(e) then w.tables
                 else SaveTables(w.tables, e, job, w.settings.queueLimit, None))
  }

  // ----- Issuing

  function ReceiptFor(c: Crypto, id: Identity, job: Job, now: int, salt: string): Event {
    var body := ReceiptBody(job.version, job.subject.id, job.digest, job.observedAt, now, job.uncertainty, "live",
      job.policyDigest, job.authorizationId,
      if job.version == 1 then None else Some("unspecified"),
      if job.version == 1 then None else Some(BasisOf(job.version)));
    Signed(c, Unsigned(id.service, now / 1000, WITNESS_KIND, ReceiptTags(job.subject, job.version),
      ReceiptContent(body)), salt)
  }

  /** The job still matches the head grant, the settings, the key and the deadline. */
  predicate JobIsCurrent(id: Identity, job: Job, r: GrantRecord, settings: Settings, now: int) {
    && job.version == VersionOf(settings.mode)
    && r.authorization.id == job.authorizationId
    && job.witnessKey == id.service
    && job.observedAt <= now <= job.observedAt + settings.maxDelay * 1000
  }

  datatype Outcome =
    | Skipped
    | Refused
    | Failed
    | Issued(receipt: Event)

  /** What issue does with a digest, and the clock it leaves. Skipped: no pending row. Failed: it raises
      after the gates, and the job stays pending. */
  function Decide(c: Crypto, id: Identity, w: World, digest: string, rd: Readings, salt: string)
    : (ClockState, Outcome)
  {
    if digest !in w.tables.jobs || !w.tables.jobs[digest].state.JobPending? then (w.clock, Skipped)
    else if !ViewOk(c, id, w.ledger, rd.viewAt) then (w.clock, Refused)
    else
      var job := w.tables.jobs[digest].inputs;
      var clock := Advance(w.clock, rd.wall, rd.monotonic);
      var sample := Reading(clock, w.settings.mode, rd.health);
      if sample.None? || !GatesOpen(c, id, w, rd, sample.value)
        || !JobIsCurrent(id, job, ViewOf(c, id, w.ledger, rd.viewAt).grant.value, w.settings, sample.value.now)
          then (clock, Refused)
      else
        var receipt := ReceiptFor(c, id, job, sample.value.now, salt);
        (clock, if ReceiptOk(c, receipt, job.subject, rd.checkAt) then Issued(receipt) else Failed)
  }

  /** The world after issue; a storage transaction that raises leaves the tables alone. */
  function Issue(c: Crypto, id: Identity, w: World, digest: string, rd: Readings, salt: string, raises: bool): World {
    var (clock, outcome) := Decide(c, id, w, digest, rd, salt);
    w.(clock := clock,
       tables := if raises then w.tables
                 else match outcome
                   case Refused => UpdateJob(w.tables, digest, true)
                   case Issued(receipt) => SaveTables(w.tables, receipt, None, 1000, Some(digest))
                   case _ => w.tables)
  }

  lemma IssuedReceiptFits(c: Crypto, receipt: Event, subject: Event, now: int)
    requires ReceiptOk(c, receipt, subject, now)
    ensures EventFits(receipt) && WellFormed(receipt)
  {
  }

  // ----- What a grant in force means

  /** Record `r` is the unrevoked head of the chain, not suspended, in its window by both clocks that are
      asked, and its policy carries exactly the marker of the clock mode. */
  ghost predicate InForce(l: Ledger, settings: Settings, r: GrantRecord, viewAt: int, sample: Sample) {
    var h := History(l);
    && h != [] && h[|h| - 1] == Grant(r) && Readable(r) && !Suspended(l)
    && Max(r.request.content.request.notBefore, r.authorization.createdAt) <= viewAt
    && viewAt < r.request.content.request.notAfter
    && Within(r, sample)
    && Markers(r.policy) == ExpectedMarkers(settings.mode)
    && (settings.mode.Bounded? || settings.maxDelay <= 60)
  }
}
