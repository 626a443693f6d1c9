/** Observation receipts: their digest, their tags, and the checks of a verifier. */
module Receipts {
  import opened Text
  import opened Events
  import opened Lifecycle

  const WITNESS_KIND := 1418
  const MAX_SAFE_INTEGER := 9007199254740991

  predicate Safe(n: int) {
    0 <= n <= MAX_SAFE_INTEGER
  }

  /** signed_event_digest: a commitment to the id and the exact signature of a valid subject. */
  function SignedEventDigest(c: Crypto, subject: Event, now: int): Option<string> {
    if ValidEvent(c, subject, now) && Safe(subject.kind) && Safe(subject.createdAt)
    then Some(c.observationDigest(subject.id, subject.sig)) else None
  }

  predicate SupportedVersion(version: int) {
    1 <= version <= 3
  }

  function ReceiptTags(subject: Event, version: int): seq<seq<string>> {
    [["e", subject.id], ["p", subject.pubkey], ["k", Decimal(subject.kind)],
     ["t", "spurline-observation-receipt-v" + Decimal(version)]]
  }

  function BasisOf(version: int): string {
    if version == 3 then "system-clock" else "ntp-synchronized-system-clock"
  }

  /** The clock claims each version makes. */
  predicate ClockClaimsOk(b: ReceiptBody) {
    if b.version == 1 then
      b.accuracy.None? && b.basis.None? && b.uncertainty.Some? && Safe(b.uncertainty.value)
      && b.observedAt + b.uncertainty.value <= MAX_SAFE_INTEGER
    else
      b.accuracy == Some("unspecified") && b.basis == Some(BasisOf(b.version)) && b.uncertainty.None?
  }

  predicate TimesOk(b: ReceiptBody, createdAt: int) {
    Safe(b.observedAt) && Safe(b.issuedAt) && b.observedAt <= b.issuedAt && createdAt == b.issuedAt / 1000
  }

  /** verify_receipt at second `now`. */
  predicate ReceiptOk(c: Crypto, receipt: Event, subject: Event, now: int) {
    && ValidEvent(c, receipt, now)
    && SignedEventDigest(c, subject, now).Some?
    && receipt.kind == WITNESS_KIND && SupportedKind(subject.kind)
    && receipt.content.ReceiptContent?
    && var b := receipt.content.receipt;
    && SupportedVersion(b.version) && b.mode in {"live", "backfill"}
    && ClockClaimsOk(b) && TimesOk(b, receipt.createdAt)
    && IsLowerHex(b.policyDigest, 64) && IsLowerHex(b.authorizationId, 64)
    && b.eventId == subject.id && b.digest == SignedEventDigest(c, subject, now).value
    && receipt.tags == ReceiptTags(subject, b.version)
  }

  /** A receipt binds one signed event: two subjects it verifies for are the same event, signature included,
      or they exhibit a collision of the hash. */
  lemma ReceiptBindsOneSubject(c: Crypto, receipt: Event, subject: Event, other: Event, now: int, later: int)
    requires ReceiptOk(c, receipt, subject, now) && ReceiptOk(c, receipt, other, later)
    ensures subject == other || DigestCollision(c, subject, other) || IdCollision(c, subject.Payload(), other.Payload())
  {
    hide IsLowerHex, TimesOk, ClockClaimsOk, ReceiptTags;
    assert c.observationDigest(subject.id, subject.sig) == c.observationDigest(other.id, other.sig);
    if subject.id == other.id && subject.Payload() == other.Payload() {
      assert subject.sig != other.sig ==> DigestCollision(c, subject, other);
    }
  }
}
