/** Who signed what: the evidence, subjects and receipts of every run, by the keys that verify them. */
module Authenticity {
  import opened Text
  import opened Events
  import opened Store
  import opened Lifecycle
  import opened LifecycleRuns
  import opened Receipts
  import opened Witnessing
  import opened WitnessingFacts
  import opened Runs
  import opened RunTheorems

  /** The event bears its own id, and a signature that verifies under the key. */
  predicate SignedBy(c: Crypto, e: Event, key: string) {
    e.pubkey == key && e.id == c.idOf(e.Payload()) && c.verifies(e.id, key, e.sig)
  }

  predicate HexForms(e: Event) {
    IsLowerHex(e.id, 64) && IsLowerHex(e.pubkey, 64) && IsLowerHex(e.sig, 128)
  }

  // ----- The ledger

  /** The operator signed the entry; if it is a grant, this service signed its request, and it grants what the
      request asked for. */
  predicate EntryIsAuthentic(c: Crypto, id: Identity, entry: Entry) {
    SignedBy(c, EventOf(entry), id.operator)
    && (entry.Grant? ==>
          SignedBy(c, entry.record.request, id.service)
          && entry.record.request.content.RequestContent?
          && entry.record.authorization.content
             == GrantContent(GrantTerms(entry.record.request, entry.record.request.content.request,
                                        entry.record.authorization.createdAt)))
  }

  lemma ChainIsAuthentic(c: Crypto, id: Identity, h: seq<Entry>, now: int, i: nat)
    requires ChainOk(c, id, h, now) && i < |h|
    ensures EntryIsAuthentic(c, id, h[i])
  {
    hide IsLowerHex, HasTags, KindsOk, PolicyOk, RenewalOk, ReasonOk;
    assert EntryOk(c, id, h, i, now);
  }

  /** The view checks out at second `t`, and the current row is in its place. */
  predicate ReadableAt(c: Crypto, id: Identity, l: Ledger, t: int) {
    ViewOk(c, id, l, t) && CurrentOk(l)
  }

  lemma ReadableIsViewed(c: Crypto, id: Identity, l: Ledger, t: int)
    requires ReadableAt(c, id, l, t)
    ensures ViewOk(c, id, l, t)
  {
    hide ViewOk;
  }

  lemma RequestStaysOk(c: Crypto, id: Identity, request: Event, policy: string, now: int, later: int)
    requires RequestOk(c, id, request, policy, now, false) && now <= later
    ensures RequestOk(c, id, request, policy, later, false)
    ensures later < request.content.request.expiresAt ==> RequestOk(c, id, request, policy, later, true)
  {
    hide RequestTermsOk, HasTags, RequestTags, IsLowerHex;
  }

  lemma ReadableLater(c: Crypto, id: Identity, l: Ledger, t: int, later: int)
    requires ReadableAt(c, id, l, t) && t <= later
    ensures ReadableAt(c, id, l, later)
  {
    hide HistoryOk, RequestOk, ContinuesHead;
    HistoryStaysOk(c, id, l, t, later);
    if l.current.Requested? {
      RequestStaysOk(c, id, l.current.request, l.current.policy, t, later);
    }
  }

  /** No command locks the evidence up: what could be read at second `t` can be read at `t` after any command
      dated no later, whether it succeeded or was rolled back. */
  lemma CommandKeepsReadable(c: Crypto, id: Identity, l: Ledger, cmd: Command, t: int)
    requires ReadableAt(c, id, l, t) && cmd.now <= t
    ensures ReadableAt(c, id, Apply(c, id, l, cmd), t)
  {
    hide ReadableAt;
    var l' := Apply(c, id, l, cmd);
    if l' != l {
      SuccessIsReadable(c, id, l, cmd, t);
      if !cmd.DoControl? {
        ReadableLater(c, id, l', cmd.now, t);
      }
    }
  }

  lemma SuccessIsReadable(c: Crypto, id: Identity, l: Ledger, cmd: Command, t: int)
    requires ReadableAt(c, id, l, t) && Apply(c, id, l, cmd) != l
    ensures ReadableAt(c, id, Apply(c, id, l, cmd), if cmd.DoControl? then t else cmd.now)
  {
    hide ChainOk, RequestOk, RecordOk, ValidEvent, ReasonOk, PolicyOk, ContinuesHead;
    match cmd
    case DoRequest(now, _, _, _, _, _, _) =>
      RequestKeeps(c, id, l, cmd);
      RequestWasOk(c, id, l, cmd);
    case DoAuthorize(now, e) => AuthorizeKeeps(c, id, l, now, e);
    case DoRevoke(now, e) => RevokeKeeps(c, id, l, now, e);
    case DoControl(_, _, _) =>
  }

  lemma RequestWasOk(c: Crypto, id: Identity, l: Ledger, cmd: Command)
    requires cmd.DoRequest? && Attempt(c, id, l, cmd).Some?
    ensures var l' := Attempt(c, id, l, cmd).value;
      l'.current.Requested? && RequestOk(c, id, l'.current.request, l'.current.policy, cmd.now, false)
  {
    hide ChainOk, RequestTermsOk, ValidEvent, HasTags, PolicyOk;
  }

  /** After any run of commands whose clocks showed no later than second `t`, the view checks out at `t`. */
  lemma {:induction false} EvidenceStaysReadable(c: Crypto, id: Identity, l: Ledger, cmds: seq<Command>, t: int)
    requires ReadableAt(c, id, l, t) && forall cmd :: cmd in cmds ==> cmd.now <= t
    ensures ReadableAt(c, id, Run(c, id, l, cmds), t)
  {
    hide ReadableAt, Apply;
    if cmds != [] {
      EvidenceStaysReadable(c, id, l, cmds[..|cmds| - 1], t);
      CommandKeepsReadable(c, id, Run(c, id, l, cmds[..|cmds| - 1]), cmds[|cmds| - 1], t);
    }
  }

  /** In every reachable ledger the operator signed every entry, and this service every request granted. */
  lemma ReachableIsAuthentic(c: Crypto, id: Identity, l0: Ledger, cmds: seq<Command>)
    requires Genesis(c, id, l0)
    ensures forall entry :: entry in History(Run(c, id, l0, cmds)) ==> EntryIsAuthentic(c, id, entry)
  {
    hide ChainOk, EntryIsAuthentic, Genesis, Apply;
    GenesisIsInvariant(c, id, l0);
    RunKeeps(c, id, l0, cmds);
    InvariantIsAuthentic(c, id, Run(c, id, l0, cmds));
  }

  lemma InvariantIsAuthentic(c: Crypto, id: Identity, l: Ledger)
    requires Invariant(c, id, l)
    ensures forall entry :: entry in History(l) ==> EntryIsAuthentic(c, id, entry)
  {
    hide ChainOk, EntryIsAuthentic, CurrentOk;
    var t :| InvariantAt(c, id, l, t);
    forall i | 0 <= i < |History(l)| ensures EntryIsAuthentic(c, id, History(l)[i]) {
      ChainIsAuthentic(c, id, History(l), t, i);
    }
  }

  // ----- Exactly which evidence is accepted

  /** The operator signed, inside the request's window, exactly the grant that was asked for. */
  predicate AnswersRequest(c: Crypto, id: Identity, request: Event, e: Event, now: int)
    requires request.content.RequestContent?
  {
    var b := request.content.request;
    && HexForms(e) && SignedBy(c, e, id.operator) && e.kind == 30078
    && e.content == GrantContent(GrantTerms(request, b, e.createdAt))
    && (forall tag :: tag in GrantTags(request, b) ==> tag in e.tags)
    && request.createdAt <= e.createdAt < b.expiresAt && e.createdAt <= now + 300 && now < b.expiresAt
  }

  /** An authorization is accepted, on evidence that can be read, if and only if it was accepted before, or it
      answers the pending request and is not dated before the head; it then becomes the head. */
  lemma AuthorizeSucceedsIff(c: Crypto, id: Identity, l: Ledger, t: int, now: int, e: Event)
    requires ReadableAt(c, id, l, t) && t <= now
    ensures l.current.Requested? ==> l.current.request.content.RequestContent?
    ensures Authorize(c, id, l, now, e).Some? <==>
      Accepted(History(l), e)
      || (l.current.Requested? && AnswersRequest(c, id, l.current.request, e, now)
          && (History(l) != [] ==> Head(History(l)).createdAt <= e.createdAt))
    ensures !Accepted(History(l), e) && Authorize(c, id, l, now, e).Some? ==>
      var record := GrantRecord(l.current.request, l.current.policy, e);
      Authorize(c, id, l, now, e) == Some(l.(current := Granted(record), rows := Some(History(l) + [Grant(record)])))
  {
    hide ChainOk, RequestOk, AuthorizationOk, AnswersRequest, HistoryOk;
    ReadableLater(c, id, l, t, now);
    match l.current
    case NoEvidence =>
    case Granted(record) => GrantedIsAccepted(l);
    case Requested(request, policy) =>
      RequestStaysOk(c, id, request, policy, now, now);
      DeadlineIsChecked(c, id, request, policy, now);
      AnswersIff(c, id, request, policy, e, now);
      if RecordOk(c, id, GrantRecord(request, policy, e), now, true) {
        AnswerFollowsHead(c, id, l, now, e);
        if History(l) != [] ==> Head(History(l)).createdAt <= e.createdAt {
          AuthorizeNeverFailsLate(c, id, l, now, GrantRecord(request, policy, e));
        }
      }
  }

  lemma GrantedIsAccepted(l: Ledger)
    requires CurrentOk(l) && l.current.Granted?
    ensures Accepted(History(l), l.current.record.authorization)
  {
    var i :| 0 <= i < |History(l)| && History(l)[i] == Grant(l.current.record);
  }

  lemma DeadlineIsChecked(c: Crypto, id: Identity, request: Event, policy: string, now: int)
    requires RequestOk(c, id, request, policy, now, false)
    ensures RequestOk(c, id, request, policy, now, true) <==> now < request.content.request.expiresAt
    ensures request.content.RequestContent? && request.content.request.requestedOperator == id.operator
  {
    hide ValidEvent, HasTags, KindsOk, PolicyOk;
  }

  lemma AnswersIff(c: Crypto, id: Identity, request: Event, policy: string, e: Event, now: int)
    requires RequestOk(c, id, request, policy, now, false)
    ensures RecordOk(c, id, GrantRecord(request, policy, e), now, true) <==> AnswersRequest(c, id, request, e, now)
  {
    hide RequestOk, GrantTags, GrantTerms, IsLowerHex;
    DeadlineIsChecked(c, id, request, policy, now);
  }

  lemma AnswerFollowsHead(c: Crypto, id: Identity, l: Ledger, now: int, e: Event)
    requires ReadableAt(c, id, l, now) && l.current.Requested?
    requires RecordOk(c, id, GrantRecord(l.current.request, l.current.policy, e), now, true)
    ensures IsLifecycleContent(e.content) && SequenceOf(e.content) == |History(l)| + 1
    ensures PreviousOf(e.content) == HeadId(History(l))
    ensures RecordOk(c, id, GrantRecord(l.current.request, l.current.policy, e), now, true)
  {
    hide ChainOk, ValidEvent, HasTags, RequestTermsOk;
  }

  /** The operator signed exactly the revocation of the head, for a reason in bounds and dated between the head's
      time and now. */
  predicate Withdraws(c: Crypto, id: Identity, h: seq<Entry>, e: Event, now: int) {
    && h != [] && h[|h| - 1].Grant? && IsLifecycleContent(Head(h).content)
    && HexForms(e) && SignedBy(c, e, id.operator)
    && e.content.RevocationContent? && 1 <= |Strip(e.content.revocation.reason)| <= 512
    && e.Payload() == RevocationTemplate(id, Head(h), e.content.revocation.reason, e.createdAt)
    && Head(h).createdAt <= e.createdAt <= now
  }

  /** A revocation is accepted, on evidence that can be read, if and only if it was accepted before or it
      withdraws the head; it then is the head, and a pending request is dropped. */
  lemma RevokeSucceedsIff(c: Crypto, id: Identity, l: Ledger, t: int, now: int, e: Event)
    requires ReadableAt(c, id, l, t) && t <= now
    ensures Revoke(c, id, l, now, e).Some? <==> Revocation(e) in History(l) || Withdraws(c, id, History(l), e, now)
    ensures Revocation(e) !in History(l) && Revoke(c, id, l, now, e).Some? ==>
      var h := History(l);
      LatestGrant(h) == Some(h[|h| - 1].record)
      && Revoke(c, id, l, now, e)
         == Some(l.(current := Granted(h[|h| - 1].record), rows := Some(h + [Revocation(e)])))
  {
    hide ChainOk, RequestOk, ValidEvent, ReasonOk, Withdraws;
    var h := History(l);
    ReadableLater(c, id, l, t, now);
    if ValidEvent(c, e, now) && e.createdAt <= now {
      var extended := h + [Revocation(e)];
      if EntryOk(c, id, extended, |h|, now) {
        ChainExtends(c, id, h, Revocation(e), now);
      } else {
        assert !ChainOk(c, id, extended, now) by {
          NotInOrder(c, id, extended, |h|, now);
        }
      }
    }
    WithdrawsIff(c, id, h, e, now);
  }

  lemma WithdrawsIff(c: Crypto, id: Identity, h: seq<Entry>, e: Event, now: int)
    requires ChainOk(c, id, h, now)
    ensures Withdraws(c, id, h, e, now)
      <==> ValidEvent(c, e, now) && e.createdAt <= now && EntryOk(c, id, h + [Revocation(e)], |h|, now)
  {
    hide ChainOk, IsLowerHex, Strip;
    if h != [] {
      EntryShape(c, id, h, now, |h| - 1);
    }
  }

  // ----- What a request asks for

  /** A request that succeeds asks for exactly what was asked of it: permission from now for the time given,
      with a deadline of a day or its end, for the kinds and the policy given, in the place after the head. */
  lemma RequestAsks(c: Crypto, id: Identity, l: Ledger, cmd: Command)
    requires cmd.DoRequest? && Attempt(c, id, l, cmd).Some?
    ensures var l' := Attempt(c, id, l, cmd).value;
      && l'.current.Requested? && l'.current.policy == cmd.policy && l'.controls == l.controls
      && History(l') == History(l)
      && SignedBy(c, l'.current.request, id.service) && l'.current.request.kind == 78
      && l'.current.request.content.RequestContent?
      && var b := l'.current.request.content.request;
      && b.notBefore == b.issuedAt == cmd.now && b.notAfter == cmd.now + cmd.validFor
      && b.expiresAt == (if cmd.validFor < 86400 then cmd.now + cmd.validFor else cmd.now + 86400)
      && (forall kind :: kind in b.kinds <==> kind in cmd.kinds)
      && b.policyDigest == c.policyDigest(cmd.policy) && b.nonce == cmd.nonce
      && b.renewal == if cmd.renew then Some(Link(|History(l)| + 1, Head(History(l)).id)) else None
  {
    hide ChainOk, PolicyOk, IsLowerHex, KindsOk, HasTags, RenewalOk;
    SortedKindsIsSorted(cmd.kinds);
  }

  // ----- Whole runs

  lemma {:induction false} LedgerThroughout(c: Crypto, id: Identity, w: World, ops: seq<Op>, n: nat)
    requires Invariant(c, id, w.ledger) && n <= |ops|
    ensures Invariant(c, id, At(c, id, w, ops, n).ledger)
  {
    hide Invariant, Next, Apply;
    if n > 0 {
      LedgerThroughout(c, id, w, ops, n - 1);
      LedgerMovesByCommand(c, id, At(c, id, w, ops, n - 1), ops[n - 1]);
      if ops[n - 1].Administer? {
        ApplyKeeps(c, id, At(c, id, w, ops, n - 1).ledger, ops[n - 1].cmd);
      }
    }
  }

  lemma {:induction false} ReadableThroughout(c: Crypto, id: Identity, w: World, ops: seq<Op>, n: nat, t: int)
    requires ReadableAt(c, id, w.ledger, t) && n <= |ops|
    requires forall i :: 0 <= i < n && ops[i].Administer? ==> ops[i].cmd.now <= t
    ensures ReadableAt(c, id, At(c, id, w, ops, n).ledger, t)
  {
    hide ReadableAt, Next, Apply;
    if n > 0 {
      ReadableThroughout(c, id, w, ops, n - 1, t);
      LedgerMovesByCommand(c, id, At(c, id, w, ops, n - 1), ops[n - 1]);
      if ops[n - 1].Administer? {
        CommandKeepsReadable(c, id, At(c, id, w, ops, n - 1).ledger, ops[n - 1].cmd, t);
      }
    }
  }

  /** The subject's author signed it, its digest commits to that signature, and this service signed the receipt. */
  predicate RowIsAuthentic(c: Crypto, id: Identity, row: JobRow) {
    && SignedBy(c, row.inputs.subject, row.inputs.subject.pubkey)
    && row.inputs.digest == c.observationDigest(row.inputs.subject.id, row.inputs.subject.sig)
    && (row.receipt.Some? ==> SignedBy(c, row.receipt.value, id.service))
  }

  /** At every moment of every run, the operator signed every entry of the history, every job's subject verifies
      under its own key, and every recorded receipt under the key of this service. */
  lemma EvidenceThroughout(c: Crypto, id: Identity, w: World, ops: seq<Op>, n: nat)
    requires Invariant(c, id, w.ledger) && JobsOk(w.tables) && w.tables.jobs == map[] && n <= |ops|
    ensures forall entry :: entry in History(At(c, id, w, ops, n).ledger) ==> EntryIsAuthentic(c, id, entry)
    ensures forall d :: d in At(c, id, w, ops, n).tables.jobs ==>
      RowIsAuthentic(c, id, At(c, id, w, ops, n).tables.jobs[d])
  {
    hide Invariant, EntryIsAuthentic, JobsOk, Next, RowIsAuthentic, Acquires, Commits, JobsEvolve;
    LedgerThroughout(c, id, w, ops, n);
    InvariantIsAuthentic(c, id, At(c, id, w, ops, n).ledger);
    JobsThroughout(c, id, w, ops, n, n);
    var t := At(c, id, w, ops, n).tables;
    forall d | d in t.jobs ensures RowIsAuthentic(c, id, t.jobs[d]) {
      RowOfJob(t, d);
      var i := JobWasFiled(c, id, w, ops, n, d);
      FiledIsSigned(c, id, At(c, id, w, ops, i), ops[i], t.jobs[d].inputs);
      if t.jobs[d].state.JobIssued? {
        var j := ReceiptWasCommitted(c, id, w, ops, n, d);
        CommittedIsSigned(c, id, At(c, id, w, ops, j), ops[j], d, t.jobs[d].receipt.value);
      }
      RowFromParts(c, id, t.jobs[d]);
    }
  }

  lemma RowFromParts(c: Crypto, id: Identity, row: JobRow)
    requires SignedBy(c, row.inputs.subject, row.inputs.subject.pubkey)
    requires row.inputs.digest == c.observationDigest(row.inputs.subject.id, row.inputs.subject.sig)
    requires row.receipt.Some? ==> SignedBy(c, row.receipt.value, id.service)
    ensures RowIsAuthentic(c, id, row)
  {
    hide SignedBy;
  }

  lemma FiledIsSigned(c: Crypto, id: Identity, w: World, op: Op, job: Job)
    requires Acquires(c, id, w, op, job)
    ensures SignedBy(c, job.subject, job.subject.pubkey)
    ensures job.digest == c.observationDigest(job.subject.id, job.subject.sig)
  {
    hide Observe, InForce, Sampled, IsLowerHex;
    var r, sample := ObservedInForce(c, id, w, op.event, op.rd);
  }

  lemma CommittedIsSigned(c: Crypto, id: Identity, w: World, op: Op, d: string, receipt: Event)
    requires Commits(c, id, w, op, d, receipt)
    ensures SignedBy(c, receipt, id.service)
  {
    hide Decide, InForce, Sampled, IsLowerHex, ReceiptTags, SignedEventDigest, JobIsCurrent;
    var r, sample := IssuedInForce(c, id, w, d, op.rd, op.salt);
  }
}
