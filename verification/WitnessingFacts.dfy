/** What a filed job and an issued receipt each establish, and when a built receipt verifies. */
module WitnessingFacts {
  import opened Text
  import opened Events
  import opened Store
  import opened Lifecycle
  import opened LifecycleRuns
  import opened Clock
  import opened Receipts
  import opened Witnessing

  /** The gates are open exactly when the viewed grant is in force as the head of the chain. */
  lemma GatesOpenIff(c: Crypto, id: Identity, w: World, rd: Readings, sample: Sample)
    requires ViewOk(c, id, w.ledger, rd.viewAt)
    ensures GatesOpen(c, id, w, rd, sample)
      <==> ViewOf(c, id, w.ledger, rd.viewAt).grant.Some?
           && InForce(w.ledger, w.settings, ViewOf(c, id, w.ledger, rd.viewAt).grant.value, rd.viewAt, sample)
    ensures forall r :: InForce(w.ledger, w.settings, r, rd.viewAt, sample) ==>
      ViewOf(c, id, w.ledger, rd.viewAt).grant == Some(r)
  {
    hide ChainOk, ValidEvent, HasTags, Markers, ExpectedMarkers, RequestTermsOk;
    if ViewOf(c, id, w.ledger, rd.viewAt).grant.Some? {
      ViewedGrantIsReadable(c, id, w.ledger, rd.viewAt);
    }
    PermittedIff(c, id, w.ledger, rd.viewAt);
  }

  /** A retained grant repeats the terms of its request and commits to its policy text. */
  lemma GrantRepeatsRequest(c: Crypto, id: Identity, r: GrantRecord, now: int)
    requires RecordOk(c, id, r, now, false)
    ensures var b, g := r.request.content.request, r.authorization.content.grant;
      g.kinds == b.kinds && g.policyDigest == b.policyDigest == c.policyDigest(r.policy)
      && g.notBefore == b.notBefore && g.notAfter == b.notAfter && g.issuedAt == r.authorization.createdAt
      && IsLowerHex(r.authorization.id, 64)
  {
    hide HasTags, KindsOk, PolicyOk;
  }

  /** What the clock reports to a call made in world `w`. */
  function Sampled(w: World, rd: Readings): Option<Sample> {
    Reading(Advance(w.clock, rd.wall, rd.monotonic), w.settings.mode, rd.health)
  }

  /** A sample states an uncertainty, of at most a second, exactly in bounded mode. */
  lemma SampledUncertainty(w: World, rd: Readings)
    requires Sampled(w, rd).Some?
    ensures Sampled(w, rd).value.uncertainty.Some? <==> w.settings.mode.Bounded?
    ensures Sampled(w, rd).value.uncertainty.Some? ==> 0 <= Sampled(w, rd).value.uncertainty.value <= 1000
    ensures Sampled(w, rd).value.now == ToMillis(rd.wall)
  {
    hide Stepped;
  }

  /** What a filed job claims: subject, reading, and the grant in force that covers the subject's kind. */
  ghost predicate JobClaims(c: Crypto, id: Identity, job: Job, settings: Settings, r: GrantRecord, sample: Sample)
    requires Readable(r)
  {
    && job.version == VersionOf(settings.mode)
    && job.observedAt == sample.now && job.uncertainty == sample.uncertainty
    && (sample.uncertainty.Some? <==> settings.mode.Bounded?)
    && (sample.uncertainty.Some? ==> 0 <= sample.uncertainty.value <= 1000)
    && job.authorizationId == r.authorization.id && IsLowerHex(job.authorizationId, 64)
    && job.policyDigest == r.authorization.content.grant.policyDigest == c.policyDigest(r.policy)
    && job.witnessKey == id.service
    && SupportedKind(job.subject.kind) && job.subject.kind in r.authorization.content.grant.kinds
  }

  lemma ObservedInForce(c: Crypto, id: Identity, w: World, e: Event, rd: Readings)
    returns (r: GrantRecord, sample: Sample)
    requires Observe(c, id, w, e, rd).1.Some?
    ensures Sampled(w, rd) == Some(sample) && InForce(w.ledger, w.settings, r, rd.viewAt, sample) && Readable(r)
    ensures var job := Observe(c, id, w, e, rd).1.value;
      job.subject == e && SignedEventDigest(c, e, rd.checkAt) == Some(job.digest)
        && JobClaims(c, id, job, w.settings, r, sample)
  {
    hide ChainOk, ValidEvent, HasTags, Markers, ExpectedMarkers, RequestTermsOk, InForce, GatesOpen, RecordOk,
      IsLowerHex, SignedEventDigest, Within, Advance, PolicyAllowsMode;
    sample := Sampled(w, rd).value;
    GatesOpenIff(c, id, w, rd, sample);
    r := ViewOf(c, id, w.ledger, rd.viewAt).grant.value;
    LatestGrantIsOk(c, id, History(w.ledger), rd.viewAt);
    GrantRepeatsRequest(c, id, r, rd.viewAt);
    ViewedGrantIsReadable(c, id, w.ledger, rd.viewAt);
  }

  lemma IssuedInForce(c: Crypto, id: Identity, w: World, digest: string, rd: Readings, salt: string)
    returns (r: GrantRecord, sample: Sample)
    requires Decide(c, id, w, digest, rd, salt).1.Issued?
    ensures digest in w.tables.jobs && w.tables.jobs[digest].state.JobPending?
    ensures Sampled(w, rd) == Some(sample) && InForce(w.ledger, w.settings, r, rd.viewAt, sample)
    ensures JobIsCurrent(id, w.tables.jobs[digest].inputs, r, w.settings, sample.now)
    ensures Decide(c, id, w, digest, rd, salt).1.receipt
      == ReceiptFor(c, id, w.tables.jobs[digest].inputs, sample.now, salt)
    ensures ReceiptOk(c, Decide(c, id, w, digest, rd, salt).1.receipt, w.tables.jobs[digest].inputs.subject, rd.checkAt)
  {
    hide ChainOk, ValidEvent, HasTags, Markers, ExpectedMarkers, InForce, GatesOpen, RecordOk, JobIsCurrent,
      ReceiptOk, ReceiptFor;
    sample := Sampled(w, rd).value;
    GatesOpenIff(c, id, w, rd, sample);
    r := ViewOf(c, id, w.ledger, rd.viewAt).grant.value;
  }

  /** The receipt an issuance is about to save can be stored. */
  lemma IssuedIsStorable(c: Crypto, id: Identity, w: World, digest: string, rd: Readings, salt: string)
    requires Decide(c, id, w, digest, rd, salt).1.Issued?
    ensures EventFits(Decide(c, id, w, digest, rd, salt).1.receipt)
      && WellFormed(Decide(c, id, w, digest, rd, salt).1.receipt)
  {
    hide Decide, ReceiptOk, WellFormed, EventFits;
    var r, sample := IssuedInForce(c, id, w, digest, rd, salt);
    IssuedReceiptFits(c, Decide(c, id, w, digest, rd, salt).1.receipt, w.tables.jobs[digest].inputs.subject,
      rd.checkAt);
  }

  /** A policy names a clock profile if it has the profile's line, and no other line that names a profile. */
  ghost predicate NamesOnly(policy: string, marker: string) {
    marker in Lines(policy) && forall line :: line in Lines(policy) && "Spurline-Clock-Profile:" <= line ==>
      line == marker
  }

  lemma OneMarker(policy: string, marker: string)
    requires MARKER_PREFIX <= marker
    ensures Markers(policy) == {marker} <==> NamesOnly(policy, marker)
  {
    hide Lines;
    assert MARKER_PREFIX == "Spurline-Clock-Profile:";
    if Markers(policy) == {marker} {
      assert marker in Markers(policy);
      forall line | line in Lines(policy) && MARKER_PREFIX <= line ensures line == marker {
        assert line in Markers(policy);
      }
    }
    if NamesOnly(policy, marker) {
      assert marker in Markers(policy);
    }
  }

  /** A policy allows bounded mode exactly if it names no clock profile, and another mode exactly if it names the
      profile of that mode and no other, and the configured delay is at most 60 s. */
  lemma PolicyAllowsIff(policy: string, settings: Settings)
    ensures PolicyAllowsMode(policy, settings) <==>
      match settings.mode
      case Bounded => forall line :: line in Lines(policy) ==> !("Spurline-Clock-Profile:" <= line)
      case Operational => NamesOnly(policy, "Spurline-Clock-Profile: operational-v1") && settings.maxDelay <= 60
      case System => NamesOnly(policy, "Spurline-Clock-Profile: system-v1") && settings.maxDelay <= 60
  {
    hide Lines, NamesOnly;
    assert OPERATIONAL_MARKER[..|MARKER_PREFIX|] == MARKER_PREFIX && SYSTEM_MARKER[..|MARKER_PREFIX|] == MARKER_PREFIX;
    OneMarker(policy, OPERATIONAL_MARKER);
    OneMarker(policy, SYSTEM_MARKER);
    if settings.mode.Bounded? && PolicyAllowsMode(policy, settings) {
      forall line | line in Lines(policy) ensures !(MARKER_PREFIX <= line) {
        assert line !in Markers(policy);
      }
    }
  }

  /** accept files a job exactly for a supported subject with a valid signature, on valid evidence and a
      clock that reports, when a grant in force covers the subject's kind. */
  lemma FilesJobIff(c: Crypto, id: Identity, w: World, e: Event, rd: Readings)
    ensures Observe(c, id, w, e, rd).1.Some? <==>
      (e.kind == 1415 || e.kind == 1416) && SignedEventDigest(c, e, rd.checkAt).Some?
        && ViewOk(c, id, w.ledger, rd.viewAt)
      && var sample := Reading(Advance(w.clock, rd.wall, rd.monotonic), w.settings.mode, rd.health);
         sample.Some?
         && exists r ::
              InForce(w.ledger, w.settings, r, rd.viewAt, sample.value) && e.kind in r.authorization.content.grant.kinds
  {
    hide ChainOk, ValidEvent, HasTags, InForce, GatesOpen, RecordOk, SignedEventDigest, Reading, Advance, HistoryOk;
    var sample := Reading(Advance(w.clock, rd.wall, rd.monotonic), w.settings.mode, rd.health);
    if ViewOk(c, id, w.ledger, rd.viewAt) && sample.Some? {
      GatesOpenIff(c, id, w, rd, sample.value);
      var viewed := ViewOf(c, id, w.ledger, rd.viewAt).grant;
      if viewed.Some? {
        ViewedTerms(c, id, w.ledger, rd.viewAt);
      }
    }
  }

  lemma ViewedTerms(c: Crypto, id: Identity, l: Ledger, now: int)
    requires ViewOk(c, id, l, now) && ViewOf(c, id, l, now).grant.Some?
    ensures Readable(ViewOf(c, id, l, now).grant.value)
    ensures ViewOf(c, id, l, now).grant.value.authorization.content.grant.kinds
      == ViewOf(c, id, l, now).grant.value.request.content.request.kinds
  {
    hide ChainOk, RecordOk;
    LatestGrantIsOk(c, id, History(l), now);
    ViewedGrantIsReadable(c, id, l, now);
    GrantRepeatsRequest(c, id, LatestGrant(History(l)).value, now);
  }

  /** issue commits a receipt exactly for a pending job, on valid evidence and a clock that reports, when the
      grant the job names is in force, the job was filed for the present mode and key and no longer ago than the
      configured delay, and the built receipt verifies. */
  lemma IssuesIff(c: Crypto, id: Identity, w: World, d: string, rd: Readings, salt: string)
    ensures Decide(c, id, w, d, rd, salt).1.Issued? <==>
      d in w.tables.jobs && w.tables.jobs[d].state.JobPending? && ViewOk(c, id, w.ledger, rd.viewAt)
      && var job := w.tables.jobs[d].inputs;
         var sample := Reading(Advance(w.clock, rd.wall, rd.monotonic), w.settings.mode, rd.health);
         sample.Some?
         && (exists r ::
               InForce(w.ledger, w.settings, r, rd.viewAt, sample.value) && r.authorization.id == job.authorizationId)
         && job.version == VersionOf(w.settings.mode) && job.witnessKey == id.service
         && 0 <= sample.value.now - job.observedAt <= w.settings.maxDelay * 1000
         && ReceiptOk(c, ReceiptFor(c, id, job, sample.value.now, salt), job.subject, rd.checkAt)
  {
    hide ViewOf, InForce, GatesOpen, ReceiptOk, ReceiptFor, Reading, Advance, HistoryOk;
    var sample := Reading(Advance(w.clock, rd.wall, rd.monotonic), w.settings.mode, rd.health);
    if ViewOk(c, id, w.ledger, rd.viewAt) && sample.Some? {
      GatesOpenIff(c, id, w, rd, sample.value);
    }
  }

  // ----- Builder and verifier agree

  /** A receipt built from a job with well-formed claims verifies exactly when its times are safe integers
      and the verifier's clock is not more than the tolerance behind. */
  lemma BuiltReceiptVerifiesIff(c: Crypto, id: Identity, job: Job, now: int, salt: string, checkAt: int)
    requires Sound(c) && IsLowerHex(id.service, 64)
    requires SignedEventDigest(c, job.subject, checkAt) == Some(job.digest) && SupportedKind(job.subject.kind)
    requires SupportedVersion(job.version) && (job.uncertainty.Some? <==> job.version == 1)
    requires job.uncertainty.Some? ==> 0 <= job.uncertainty.value <= 1000
    requires IsLowerHex(job.policyDigest, 64) && IsLowerHex(job.authorizationId, 64) && job.observedAt <= now
    ensures ReceiptOk(c, ReceiptFor(c, id, job, now, salt), job.subject, checkAt)
      <==> 0 <= job.observedAt && now <= MAX_SAFE_INTEGER && now / 1000 <= checkAt + FUTURE_TOLERANCE
           && (job.uncertainty.Some? ==> job.observedAt + job.uncertainty.value <= MAX_SAFE_INTEGER)
  {
    hide IsLowerHex, Sound, ValidEvent, SignedEventDigest, ReceiptTags;
    var receipt := ReceiptFor(c, id, job, now, salt);
    SignedIsValid(c, Unsigned(id.service, now / 1000, WITNESS_KIND, ReceiptTags(job.subject, job.version),
      receipt.content), salt, checkAt);
  }

  /** A subject signed under any key has a digest exactly if its kind and time are safe integers and it is not
      dated beyond the tolerance. */
  lemma SignedSubjectHasDigest(c: Crypto, u: Unsigned, salt: string, now: int)
    requires Sound(c) && IsLowerHex(u.pubkey, 64)
    ensures SignedEventDigest(c, Signed(c, u, salt), now).Some?
      <==> 0 <= u.kind <= 9007199254740991 && 0 <= u.createdAt <= 9007199254740991 && u.createdAt <= now + 900
  {
    hide Sound, IsLowerHex, ValidEvent;
    SignedIsValid(c, u, salt, now);
  }

  /** The job a receipt claims to answer. */
  function ClaimedJob(receipt: Event, subject: Event): Job
    requires receipt.content.ReceiptContent?
  {
    var b := receipt.content.receipt;
    Job(subject, b.digest, b.version, b.observedAt, b.uncertainty, b.authorizationId, b.policyDigest, receipt.pubkey)
  }

  /** A service with the key of the receipt's signer. */
  function Signer(receipt: Event): Identity {
    Identity(receipt.pubkey, "", "", "")
  }

  /** The verifier accepts a receipt of live observation if and only if its payload is the one issuance builds from
      the job it claims, under the key that signed it, and job, times and signature are in order. */
  lemma VerifiedIffBuilt(c: Crypto, receipt: Event, subject: Event, now: int)
    requires receipt.content.ReceiptContent? && receipt.content.receipt.mode == "live"
    ensures ReceiptOk(c, receipt, subject, now) <==>
      var b := receipt.content.receipt;
      && receipt.Payload() == ReceiptFor(c, Signer(receipt), ClaimedJob(receipt, subject), b.issuedAt, "").Payload()
      && SignedEventDigest(c, subject, now) == Some(b.digest) && (subject.kind == 1415 || subject.kind == 1416)
        && 1 <= b.version <= 3
      && (b.uncertainty.Some? <==> b.version == 1)
      && (b.uncertainty.Some? ==> 0 <= b.uncertainty.value && b.observedAt + b.uncertainty.value <= MAX_SAFE_INTEGER)
      && 0 <= b.observedAt <= b.issuedAt <= MAX_SAFE_INTEGER && b.issuedAt / 1000 <= now + 900
      && IsLowerHex(b.policyDigest, 64) && IsLowerHex(b.authorizationId, 64)
      && IsLowerHex(receipt.id, 64) && IsLowerHex(receipt.pubkey, 64) && IsLowerHex(receipt.sig, 128)
      && receipt.id == c.idOf(receipt.Payload()) && c.verifies(receipt.id, receipt.pubkey, receipt.sig)
  {
    hide IsLowerHex, SignedEventDigest, ReceiptTags;
  }

  /** A receipt that verifies for a subject is of kind 1418, is found under the subject's id, author and kind and
      under the profile of its version, and names the basis of its times unless it states their uncertainty. */
  lemma ReceiptIsFound(c: Crypto, receipt: Event, subject: Event, now: int)
    requires ReceiptOk(c, receipt, subject, now)
    ensures ["e", subject.id] in receipt.tags && ["p", subject.pubkey] in receipt.tags
    ensures ["k", Decimal(subject.kind)] in receipt.tags
    ensures receipt.kind == 1418
    ensures var b := receipt.content.receipt;
      (b.version == 1 ==> b.uncertainty.Some? && b.basis.None?)
      && (b.version == 2 ==> b.basis == Some("ntp-synchronized-system-clock") && b.uncertainty.None?)
      && (b.version == 3 ==> b.basis == Some("system-clock") && b.uncertainty.None?)
    ensures ["t", "spurline-observation-receipt-v" + Decimal(receipt.content.receipt.version)] in receipt.tags
  {
    hide IsLowerHex, SignedEventDigest, TimesOk;
    var tags := receipt.tags;
    assert tags[0] == ["e", subject.id] && tags[1] == ["p", subject.pubkey] && tags[2] == ["k", Decimal(subject.kind)];
    assert tags[3] == ["t", "spurline-observation-receipt-v" + Decimal(receipt.content.receipt.version)];
  }

  /** A subject that validated keeps validating, with the same digest. */
  lemma DigestIsStable(c: Crypto, e: Event, now: int, later: int)
    requires SignedEventDigest(c, e, now).Some? && now <= later
    ensures SignedEventDigest(c, e, later) == SignedEventDigest(c, e, now)
  {
  }

  /** A job from which a receipt can be built at any second from `since` on. */
  ghost predicate Buildable(c: Crypto, job: Job, since: int) {
    && SignedEventDigest(c, job.subject, since) == Some(job.digest) && SupportedKind(job.subject.kind)
    && SupportedVersion(job.version) && (job.uncertainty.Some? <==> job.version == 1)
    && (job.uncertainty.Some? ==> 0 <= job.uncertainty.value <= 1000)
    && IsLowerHex(job.policyDigest, 64) && IsLowerHex(job.authorizationId, 64) && 0 <= job.observedAt
  }

  /** Readings no earlier than second `since`, with wall time a safe integer of milliseconds that the checking
      clock does not trail by more than the tolerance. */
  predicate InRange(rd: Readings, since: int) {
    since <= rd.checkAt
    && ToMillis(rd.wall) + 1000 <= MAX_SAFE_INTEGER && ToMillis(rd.wall) / 1000 <= rd.checkAt + FUTURE_TOLERANCE
  }

  lemma FiledIsBuildable(c: Crypto, id: Identity, w: World, e: Event, rd: Readings)
    requires Sound(c) && Observe(c, id, w, e, rd).1.Some? && 0 <= Observe(c, id, w, e, rd).1.value.observedAt
    ensures Buildable(c, Observe(c, id, w, e, rd).1.value, rd.checkAt)
  {
    hide Sound, IsLowerHex, SignedEventDigest, InForce, Observe, Sampled;
    var r, sample := ObservedInForce(c, id, w, e, rd);
    PolicyDigestIsHex(c, r.policy);
  }

  lemma BuildableStays(c: Crypto, job: Job, since: int, later: int)
    requires Buildable(c, job, since) && since <= later
    ensures Buildable(c, job, later)
  {
    hide SignedEventDigest, IsLowerHex;
    DigestIsStable(c, job.subject, since, later);
  }

  /** Issuing a buildable job never raises after its gates. */
  lemma BuildableNeverFails(c: Crypto, id: Identity, w: World, d: string, rd: Readings, salt: string, since: int)
    requires Sound(c) && IsLowerHex(id.service, 64) && InRange(rd, since)
    requires d in w.tables.jobs && Buildable(c, w.tables.jobs[d].inputs, since)
    ensures !Decide(c, id, w, d, rd, salt).1.Failed?
  {
    hide ViewOk, GatesOpen, ReceiptOk, ReceiptFor, Sound, IsLowerHex, SignedEventDigest, HasTags;
    var job := w.tables.jobs[d].inputs;
    BuildableStays(c, job, since, rd.checkAt);
    if Decide(c, id, w, d, rd, salt).1.Failed? {
      BuiltReceiptVerifiesIff(c, id, job, ToMillis(rd.wall), salt, rd.checkAt);
    }
  }

  /** Whatever issue builds from a job that accept filed, in any version, the verifier accepts: issue never
      raises after its gates while clocks do not run backwards and stay in the range of safe integers. */
  lemma IssueNeverFails(c: Crypto, id: Identity, w: World, e: Event, rd: Readings, w': World, rd': Readings,
    salt: string)
    requires Sound(c) && IsLowerHex(id.service, 64)
    requires Observe(c, id, w, e, rd).1.Some? && InRange(rd', rd.checkAt)
    requires var job := Observe(c, id, w, e, rd).1.value;
      job.digest in w'.tables.jobs && w'.tables.jobs[job.digest].inputs == job
    requires 0 <= Observe(c, id, w, e, rd).1.value.observedAt
    ensures !Decide(c, id, w', Observe(c, id, w, e, rd).1.value.digest, rd', salt).1.Failed?
  {
    hide Observe, Decide, Buildable, InRange;
    FiledIsBuildable(c, id, w, e, rd);
    BuildableNeverFails(c, id, w', Observe(c, id, w, e, rd).1.value.digest, rd', salt, rd.checkAt);
  }

  lemma PolicyDigestIsHex(c: Crypto, policy: string)
    requires Sound(c)
    ensures IsLowerHex(c.policyDigest(policy), 64)
  {
    hide IsLowerHex;
  }

  // ----- Seconds and milliseconds

  /** The second-level window test of the view and the millisecond test agree on a bare local time, and
      the test with an uncertainty is the stricter of the two. */
  lemma WindowTestsAgree(c: Crypto, id: Identity, r: GrantRecord, t: int, sample: Sample)
    requires RecordOk(c, id, r, t, false) && sample.now / 1000 == t
    ensures sample.uncertainty.None? ==> (Within(r, sample) <==> GrantState(r, t).Authorized?)
    ensures sample.uncertainty.Some? && sample.uncertainty.value >= 0 && Within(r, sample) ==>
      GrantState(r, t).Authorized?
  {
    hide HasTags, ValidEvent, RequestTermsOk;
    GrantRepeatsRequest(c, id, r, t);
  }
}
