/** The witness authorization lifecycle: its evidence, the checks on it, and the operations. */
module Lifecycle {
  import opened Text
  import opened Events

  const MAX_CLOCK_SKEW := 300
  const REQUEST_TTL := 86400
  const MAX_POLICY_BYTES := 262144
  const MAX_VALIDITY := 31536000
  const REQUEST_KIND := 78
  const LIFECYCLE_KIND := 30078
  const ROLE := "observation-witness"
  const AUTHORIZATION_SCHEMA := "org.spurline.witness-authorization"

  /** The verified commissioning record and this service's identity. */
  datatype Identity = Identity(service: string, operator: string, attestation: string, management: string)

  /** A request, the policy text it commits to, and the operator's grant. */
  datatype GrantRecord = GrantRecord(request: Event, policy: string, authorization: Event)

  datatype Entry = Grant(record: GrantRecord) | Revocation(event: Event)

  /** The single current row. */
  datatype Current = NoEvidence | Requested(request: Event, policy: string) | Granted(record: GrantRecord)

  datatype Action = Suspend | Resume

  datatype Control = Control(action: Action, reason: string, recordedAt: int)

  /** The administrative tables; `rows` is None until the history table is first written. */
  datatype Ledger = Ledger(current: Current, rows: Option<seq<Entry>>, controls: seq<Control>)

  function EventOf(entry: Entry): Event {
    match entry
    case Grant(record) => record.authorization
    case Revocation(event) => event
  }

  /** The accepted history; before the table exists, a lone authorized row is the whole history. */
  function History(l: Ledger): seq<Entry> {
    match l.rows
    case Some(rows) => rows
    case None => if l.current.Granted? then [Grant(l.current.record)] else []
  }

  function Head(h: seq<Entry>): Event
    requires h != []
  {
    EventOf(h[|h| - 1])
  }

  function HeadId(h: seq<Entry>): Option<string> {
    if h == [] then None else Some(Head(h).id)
  }

  /** The most recent grant of a history. */
  function LatestGrant(h: seq<Entry>): (r: Option<GrantRecord>)
    ensures r.None? <==> forall i :: 0 <= i < |h| ==> h[i].Revocation?
    ensures r.Some? ==> Grant(r.value) in h
    ensures h != [] && h[|h| - 1].Grant? ==> r == Some(h[|h| - 1].record)
  {
    if h == [] then None
    else if h[|h| - 1].Grant? then Some(h[|h| - 1].record)
    else LatestGrant(h[..|h| - 1])
  }

  // ----- Requests and grants

  predicate SupportedKind(kind: int) {
    kind == 1415 || kind == 1416
  }

  predicate Ascending(kinds: seq<int>) {
    forall i, j :: 0 <= i < j < |kinds| ==> kinds[i] < kinds[j]
  }

  predicate KindsOk(kinds: seq<int>) {
    kinds != [] && (forall i :: 0 <= i < |kinds| ==> SupportedKind(kinds[i])) && Ascending(kinds)
  }

  predicate PolicyOk(policy: string) {
    0 < Utf8Length(policy) <= MAX_POLICY_BYTES
  }

  predicate ReasonOk(reason: string) {
    1 <= |Strip(reason)| <= 512
  }

  function RequestTags(id: Identity, expiresAt: int): seq<seq<string>> {
    [["p", id.operator, "", "operator"],
     ["e", id.attestation, "", "commissioning-attestation"],
     ["expiration", Decimal(expiresAt)],
     ["role", ROLE]]
  }

  predicate HasTags(e: Event, tags: seq<seq<string>>) {
    forall i :: 0 <= i < |tags| ==> tags[i] in e.tags
  }

  predicate RenewalOk(renewal: Option<Link>) {
    renewal.Some? ==> renewal.value.sequence >= 2 && IsLowerHex(renewal.value.previous, 64)
  }

  /** What a request's content must say, given this service and the retained policy text. */
  predicate RequestTermsOk(c: Crypto, id: Identity, b: RequestBody, policy: string) {
    && b.notBefore == b.issuedAt && 0 < b.notAfter - b.notBefore <= MAX_VALIDITY
    && b.expiresAt == Min(b.issuedAt + REQUEST_TTL, b.notAfter)
    && KindsOk(b.kinds) && IsLowerHex(b.nonce, 64) && PolicyOk(policy)
    && b.service == id.service && b.requestedOperator == id.operator
    && b.management == id.management && b.attestation == id.attestation
    && b.policyDigest == c.policyDigest(policy)
    && RenewalOk(b.renewal)
  }

  /** _verify_request; `current` also demands that the deadline has not passed. */
  predicate RequestOk(c: Crypto, id: Identity, request: Event, policy: string, now: int, current: bool) {
    && ValidEvent(c, request, now) && request.content.RequestContent?
    && request.kind == REQUEST_KIND && request.pubkey == id.service
    && var b := request.content.request;
    && b.issuedAt == request.createdAt && b.issuedAt <= now + MAX_CLOCK_SKEW
    && RequestTermsOk(c, id, b, policy)
    && (current ==> now < b.expiresAt)
    && HasTags(request, RequestTags(id, b.expiresAt))
  }

  function GrantTags(request: Event, b: RequestBody): seq<seq<string>> {
    [["d", AUTHORIZATION_SCHEMA + ":" + b.service + (if b.renewal.Some? then ":" + request.id else "")],
     ["p", b.service, "", "service"],
     ["e", request.id, "", "authorization-request"],
     ["e", b.attestation, "", "commissioning-attestation"],
     ["role", ROLE]]
  }

  function GrantTerms(request: Event, b: RequestBody, issuedAt: int): GrantBody {
    GrantBody(b.renewal.Some?, b.service, b.requestedOperator, b.management, b.attestation,
      request.id, issuedAt, b.notBefore, b.notAfter, b.kinds, b.policyDigest,
      if b.renewal.Some? then b.renewal.value.sequence else 1,
      if b.renewal.Some? then Some(b.renewal.value.previous) else None)
  }

  /** The unsigned grant the operator is offered. */
  function AuthorizationTemplate(request: Event, issuedAt: int): Unsigned
    requires request.content.RequestContent?
  {
    var b := request.content.request;
    Unsigned(b.requestedOperator, issuedAt, LIFECYCLE_KIND, GrantTags(request, b),
      GrantContent(GrantTerms(request, b, issuedAt)))
  }

  /** _verify_authorization, against a request that passed its own check. */
  predicate AuthorizationOk(c: Crypto, e: Event, request: Event, now: int)
    requires request.content.RequestContent?
  {
    var b := request.content.request;
    && ValidEvent(c, e, now) && e.content.GrantContent?
    && e.kind == LIFECYCLE_KIND && e.pubkey == b.requestedOperator
    && request.createdAt <= e.createdAt < b.expiresAt
    && e.createdAt <= now + MAX_CLOCK_SKEW
    && e.content.grant == GrantTerms(request, b, e.createdAt)
    && HasTags(e, GrantTags(request, b))
  }

  /** _check of complete evidence. */
  predicate RecordOk(c: Crypto, id: Identity, r: GrantRecord, now: int, current: bool) {
    RequestOk(c, id, r.request, r.policy, now, current) && AuthorizationOk(c, r.authorization, r.request, now)
  }

  // ----- The chain

  predicate IsLifecycleContent(content: Content) {
    content.GrantContent? || content.RevocationContent?
  }

  function SequenceOf(content: Content): int
    requires IsLifecycleContent(content)
  {
    if content.GrantContent? then content.grant.sequence else content.revocation.sequence
  }

  function PreviousOf(content: Content): Option<string>
    requires IsLifecycleContent(content)
  {
    if content.GrantContent? then content.grant.previous else Some(content.revocation.previous)
  }

  /** The one revocation of `head` with this reason and time. */
  function RevocationTemplate(id: Identity, head: Event, reason: string, issuedAt: int): Unsigned
    requires IsLifecycleContent(head.content)
  {
    Unsigned(id.operator, issuedAt, LIFECYCLE_KIND,
      [["d", AUTHORIZATION_SCHEMA + ":" + id.service + ":revoke:" + head.id],
       ["p", id.service, "", "service"],
       ["e", head.id, "", "previous-authorization"],
       ["e", id.attestation, "", "commissioning-attestation"],
       ["role", ROLE]],
      RevocationContent(RevocationBody(id.service, id.operator, id.management, id.attestation,
        issuedAt, issuedAt, reason, SequenceOf(head.content) + 1, head.id)))
  }

  predicate RevocationOk(id: Identity, e: Event, head: Event)
    requires IsLifecycleContent(head.content)
  {
    && e.content.RevocationContent? && ReasonOk(e.content.revocation.reason)
    && e.Payload() == RevocationTemplate(id, head, e.content.revocation.reason, e.createdAt)
  }

  /** Position and time of an entry, relative to the entry before it. */
  predicate LinkOk(h: seq<Entry>, i: nat)
    requires i < |h|
  {
    var e := EventOf(h[i]);
    && IsLifecycleContent(e.content)
    && SequenceOf(e.content) == i + 1
    && PreviousOf(e.content) == (if i == 0 then None else Some(EventOf(h[i - 1]).id))
    && (i > 0 ==> EventOf(h[i - 1]).createdAt <= e.createdAt)
  }

  /** One round of _validate_history. */
  predicate EntryOk(c: Crypto, id: Identity, h: seq<Entry>, i: nat, now: int)
    requires i < |h|
  {
    && ValidEvent(c, EventOf(h[i]), now)
    && LinkOk(h, i)
    && match h[i]
       case Grant(record) =>
         RecordOk(c, id, record, now, false) && record.authorization.content.grant.renewed == (i > 0)
       case Revocation(event) =>
         i > 0 && h[i - 1].Grant? && IsLifecycleContent(EventOf(h[i - 1]).content)
           && RevocationOk(id, event, EventOf(h[i - 1]))
  }

  predicate ChainOk(c: Crypto, id: Identity, h: seq<Entry>, now: int) {
    forall i :: 0 <= i < |h| ==> EntryOk(c, id, h, i, now)
  }

  /** _validate_history: every entry, and an authorized current row that is the latest grant. */
  predicate HistoryOk(c: Crypto, id: Identity, l: Ledger, now: int) {
    ChainOk(c, id, History(l), now)
    && (l.current.Granted? && History(l) != [] ==> LatestGrant(History(l)) == Some(l.current.record))
  }

  // ----- The view

  datatype AuthState = NotAuthorized | PendingRequest | RequestExpired | NotYetValid | Expired | Authorized | Revoked

  function GrantState(r: GrantRecord, now: int): AuthState
    requires r.request.content.RequestContent?
  {
    var b := r.request.content.request;
    if now < Max(b.notBefore, r.authorization.createdAt) then NotYetValid
    else if now >= b.notAfter then Expired
    else Authorized
  }

  function RequestState(request: Event, now: int): AuthState
    requires request.content.RequestContent?
  {
    if now < request.content.request.expiresAt then PendingRequest else RequestExpired
  }

  datatype View = View(authorizationState: AuthState, suspended: bool, grant: Option<GrantRecord>, history: seq<Entry>)
  {
    predicate Permitted() {
      authorizationState.Authorized? && !suspended
    }
  }

  predicate Suspended(l: Ledger) {
    l.controls != [] && l.controls[|l.controls| - 1].action.Suspend?
  }

  /** Whether _view succeeds: the history and any pending request both check out. */
  predicate ViewOk(c: Crypto, id: Identity, l: Ledger, now: int) {
    HistoryOk(c, id, l, now)
    && (l.current.Requested? ==> RequestOk(c, id, l.current.request, l.current.policy, now, false))
  }

  lemma {:induction false} LatestGrantIsOk(c: Crypto, id: Identity, h: seq<Entry>, now: int)
    requires ChainOk(c, id, h, now) && h != []
    ensures LatestGrant(h).Some? && RecordOk(c, id, LatestGrant(h).value, now, false)
  {
    assert EntryOk(c, id, h, 0, now);
    assert h[0].Grant?;
    var i :| 0 <= i < |h| && h[i] == Grant(LatestGrant(h).value);
    assert EntryOk(c, id, h, i, now);
  }

  function ViewOf(c: Crypto, id: Identity, l: Ledger, now: int): View
    requires ViewOk(c, id, l, now)
  {
    var h := History(l);
    if h == [] then
      View(if l.current.Requested? then RequestState(l.current.request, now) else NotAuthorized, Suspended(l), None, h)
    else
      LatestGrantIsOk(c, id, h, now);
      var grant := LatestGrant(h).value;
      View(if h[|h| - 1].Revocation? then Revoked else GrantState(grant, now), Suspended(l), Some(grant), h)
  }

  // ----- Operations: the ledger a successful call commits, or None for a call that raises

  function Insert(k: int, kinds: seq<int>): seq<int> {
    if kinds == [] || k < kinds[0] then [k] + kinds
    else if k == kinds[0] then kinds
    else [kinds[0]] + Insert(k, kinds[1..])
  }

  /** sorted(set(kinds)). */
  function SortedKinds(kinds: seq<int>): seq<int> {
    if kinds == [] then [] else Insert(kinds[|kinds| - 1], SortedKinds(kinds[..|kinds| - 1]))
  }

  function RequestTerms(c: Crypto, id: Identity, h: seq<Entry>, now: int, policy: string,
    validFor: int, kinds: seq<int>, renew: bool, nonce: string): RequestBody
    requires renew ==> h != []
  {
    RequestBody(id.service, id.operator, id.management, id.attestation,
      now, Min(now + REQUEST_TTL, now + validFor), nonce, now, now + validFor,
      SortedKinds(kinds), c.policyDigest(policy),
      if renew then Some(Link(|h| + 1, Head(h).id)) else None)
  }

  function RequestEvent(c: Crypto, id: Identity, b: RequestBody, salt: string): Event {
    Signed(c, Unsigned(id.service, b.issuedAt, REQUEST_KIND, RequestTags(id, b.expiresAt), RequestContent(b)), salt)
  }

  function Request(c: Crypto, id: Identity, l: Ledger, now: int, policy: string, validFor: int, kinds: seq<int>,
    renew: bool, nonce: string, salt: string): Option<Ledger>
  {
    var h := History(l);
    if !(0 < validFor <= MAX_VALIDITY) || !PolicyOk(policy) || !HistoryOk(c, id, l, now) || (h != []) != renew then None
    else if renew && now < Head(h).createdAt then None
    else
      var request := RequestEvent(c, id, RequestTerms(c, id, h, now, policy, validFor, kinds, renew, nonce), salt);
      if !RequestOk(c, id, request, policy, now, true) then None
      else Some(l.(current := Requested(request, policy), rows := if h != [] then Some(h) else l.rows))
  }

  function Authorize(c: Crypto, id: Identity, l: Ledger, now: int, e: Event): Option<Ledger> {
    var h := History(l);
    if !HistoryOk(c, id, l, now) then None
    else if exists i :: 0 <= i < |h| && h[i].Grant? && h[i].record.authorization == e then
      if ViewOk(c, id, l, now) then Some(l) else None
    else match l.current
      case NoEvidence => None
      case Granted(record) =>
        if record.authorization == e && RecordOk(c, id, record, now, false) && ViewOk(c, id, l, now) then Some(l)
        else None
      case Requested(request, policy) =>
        var record := GrantRecord(request, policy, e);
        if !RecordOk(c, id, record, now, true)
          || SequenceOf(e.content) != |h| + 1 || PreviousOf(e.content) != HeadId(h)
          || (h != [] && e.createdAt < Head(h).createdAt) then None
        else
          var l' := l.(current := Granted(record), rows := Some(h + [Grant(record)]));
          if ViewOk(c, id, l', now) then Some(l') else None
  }

  function Revoke(c: Crypto, id: Identity, l: Ledger, now: int, e: Event): Option<Ledger> {
    var h := History(l);
    if !HistoryOk(c, id, l, now) then None
    else if Revocation(e) in h then
      if ViewOk(c, id, l, now) then Some(l) else None
    else if !ValidEvent(c, e, now) || e.createdAt > now then None
    else
      var appended := l.(rows := Some(h + [Revocation(e)]));
      if !HistoryOk(c, id, appended, now) || LatestGrant(h).None? then None
      else
        var l' := appended.(current := Granted(LatestGrant(h).value));
        if ViewOk(c, id, l', now) then Some(l') else None
  }

  function SetControl(c: Crypto, id: Identity, l: Ledger, now: int, action: Action, reason: string): Option<Ledger> {
    if !ReasonOk(reason) || !ViewOk(c, id, l, now) then None
    else if action.Resume? && !ViewOf(c, id, l, now).authorizationState.Authorized? then None
    else Some(l.(controls := l.controls + [Control(action, reason, now)]))
  }

  /** A lifecycle command, with the second its clock shows and the randomness it draws. */
  datatype Command =
    | DoRequest(now: int, policy: string, validFor: int, kinds: seq<int>, renew: bool, nonce: string, salt: string)
    | DoAuthorize(now: int, event: Event)
    | DoRevoke(now: int, event: Event)
    | DoControl(now: int, action: Action, reason: string)

  function Attempt(c: Crypto, id: Identity, l: Ledger, cmd: Command): Option<Ledger> {
    match cmd
    case DoRequest(now, policy, validFor, kinds, renew, nonce, salt) =>
      Request(c, id, l, now, policy, validFor, kinds, renew, nonce, salt)
    case DoAuthorize(now, event) => Authorize(c, id, l, now, event)
    case DoRevoke(now, event) => Revoke(c, id, l, now, event)
    case DoControl(now, action, reason) => SetControl(c, id, l, now, action, reason)
  }

  /** A command's effect; a command that raises rolls back to the ledger it found. */
  function Apply(c: Crypto, id: Identity, l: Ledger, cmd: Command): Ledger {
    match Attempt(c, id, l, cmd)
    case Some(l') => l'
    case None => l
  }
}
