/** Signed Nostr events, the documents they carry, and the foreign primitives that check them. */
module Events {
  import opened Text

  /** The link of a renewal request to the lifecycle head it continues. */
  datatype Link = Link(sequence: int, previous: string)

  /** A witness request. `renewal` is present exactly in schema version 2. */
  datatype RequestBody = RequestBody(
    service: string, requestedOperator: string, management: string, attestation: string,
    issuedAt: int, expiresAt: int, nonce: string, notBefore: int, notAfter: int,
    kinds: seq<int>, policyDigest: string, renewal: Option<Link>)

  /** A witness grant. `renewed` tells schema version 2 (action renew) from version 1 (authorize). */
  datatype GrantBody = GrantBody(
    renewed: bool, service: string, operator: string, management: string, attestation: string,
    requestId: string, issuedAt: int, notBefore: int, notAfter: int,
    kinds: seq<int>, policyDigest: string, sequence: int, previous: Option<string>)

  /** A signed withdrawal of the preceding grant. */
  datatype RevocationBody = RevocationBody(
    service: string, operator: string, management: string, attestation: string,
    issuedAt: int, effectiveAt: int, reason: string, sequence: int, previous: string)

  /** An observation receipt. `accuracy` and `basis` are the keys of versions 2 and 3. */
  datatype ReceiptBody = ReceiptBody(
    version: int, eventId: string, digest: string, observedAt: int, issuedAt: int,
    uncertainty: Option<int>, mode: string, policyDigest: string, authorizationId: string,
    accuracy: Option<string>, basis: Option<string>)

  /** The content string of an event: either the canonical encoding of one of the documents, with its
      fixed schema, role and profile keys, or any other text. */
  datatype Content =
    | Plain(text: string)
    | RequestContent(request: RequestBody)
    | GrantContent(grant: GrantBody)
    | RevocationContent(revocation: RevocationBody)
    | ReceiptContent(receipt: ReceiptBody)

  /** What an event id commits to. */
  datatype Unsigned = Unsigned(pubkey: string, createdAt: int, kind: int, tags: seq<seq<string>>, content: Content)

  datatype Event = Event(
    id: string, pubkey: string, createdAt: int, kind: int, tags: seq<seq<string>>, content: Content, sig: string)
  {
    function Payload(): Unsigned {
      Unsigned(pubkey, createdAt, kind, tags, content)
    }

    /** The event without its signature. */
    function Unsealed(): Event {
      this.(sig := "")
    }
  }

  /** Foreign primitives: SHA-256 over canonical encodings, and Schnorr signatures. */
  datatype Crypto = Crypto(
    idOf: Unsigned -> string,
    verifies: (string, string, string) -> bool,
    policyDigest: string -> string,
    observationDigest: (string, string) -> string,
    sign: (string, string, string) -> string)

  /** Hexadecimal output of the primitives, and signatures that verify under the signing key. */
  ghost predicate Sound(c: Crypto) {
    (forall u :: IsLowerHex(c.idOf(u), 64))
    && (forall p :: IsLowerHex(c.policyDigest(p), 64))
    && (forall key, id, salt :: IsLowerHex(c.sign(key, id, salt), 128))
    && (forall key, id, salt :: c.verifies(id, key, c.sign(key, id, salt)))
  }

  /** Two different payloads with one id: a SHA-256 collision. */
  predicate IdCollision(c: Crypto, u: Unsigned, v: Unsigned) {
    u != v && c.idOf(u) == c.idOf(v)
  }

  /** Two different signed events with one observation digest: a SHA-256 collision. */
  predicate DigestCollision(c: Crypto, a: Event, b: Event) {
    (a.id, a.sig) != (b.id, b.sig) && c.observationDigest(a.id, a.sig) == c.observationDigest(b.id, b.sig)
  }

  const FUTURE_TOLERANCE := 900

  /** validate_event with its signature check, at second `now`. */
  predicate ValidEvent(c: Crypto, e: Event, now: int) {
    IsLowerHex(e.id, 64) && IsLowerHex(e.pubkey, 64) && IsLowerHex(e.sig, 128)
    && e.createdAt <= now + FUTURE_TOLERANCE
    && e.id == c.idOf(e.Payload())
    && c.verifies(e.id, e.pubkey, e.sig)
  }

  /** Event.sign: the event with its id and a signature made under `key`. */
  function Signed(c: Crypto, u: Unsigned, salt: string): Event {
    var id := c.idOf(u);
    Event(id, u.pubkey, u.createdAt, u.kind, u.tags, u.content, c.sign(u.pubkey, id, salt))
  }

  lemma SignedIsValid(c: Crypto, u: Unsigned, salt: string, now: int)
    requires Sound(c) && IsLowerHex(u.pubkey, 64)
    ensures ValidEvent(c, Signed(c, u, salt), now) <==> u.createdAt <= now + FUTURE_TOLERANCE
    ensures Signed(c, u, salt).Payload() == u
  {
    assert IsLowerHex(c.idOf(u), 64);
    assert IsLowerHex(c.sign(u.pubkey, c.idOf(u), salt), 128);
    assert c.verifies(c.idOf(u), u.pubkey, c.sign(u.pubkey, c.idOf(u), salt));
  }

  /** An id determines everything about an event but its signature. */
  ghost predicate IdDetermines(events: set<Event>) {
    forall a, b :: a in events && b in events && a.id == b.id ==> a.Unsealed() == b.Unsealed()
  }
}
