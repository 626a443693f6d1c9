/** What every run of lifecycle commands keeps, for every clock the commands may have seen. */
module LifecycleRuns {
  import opened Text
  import opened Events
  import opened Lifecycle

  /** Commands in turn, the last one last. */
  function Run(c: Crypto, id: Identity, l: Ledger, cmds: seq<Command>): Ledger {
    if cmds == [] then l else Apply(c, id, Run(c, id, l, cmds[..|cmds| - 1]), cmds[|cmds| - 1])
  }

  // ----- Later clocks never invalidate evidence

  lemma RecordStaysOk(c: Crypto, id: Identity, r: GrantRecord, now: int, later: int)
    requires RecordOk(c, id, r, now, false) && now <= later
    ensures RecordOk(c, id, r, later, false)
  {
    hide RequestTermsOk, HasTags, GrantTags, RequestTags, IsLowerHex;
  }

  /** A history that validates at one second validates at every later one. */
  lemma ChainStaysOk(c: Crypto, id: Identity, h: seq<Entry>, now: int, later: int)
    requires ChainOk(c, id, h, now) && now <= later
    ensures ChainOk(c, id, h, later)
  {
    hide RecordOk, RevocationOk, LinkOk, IsLowerHex;
    forall i | 0 <= i < |h| ensures EntryOk(c, id, h, i, later) {
      assert EntryOk(c, id, h, i, now);
      if h[i].Grant? {
        RecordStaysOk(c, id, h[i].record, now, later);
      }
    }
  }

  lemma HistoryStaysOk(c: Crypto, id: Identity, l: Ledger, now: int, later: int)
    requires HistoryOk(c, id, l, now) && now <= later
    ensures HistoryOk(c, id, l, later)
  {
    hide ChainOk;
    ChainStaysOk(c, id, History(l), now, later);
  }

  // ----- The invariant

  /** A pending request continues exactly the present head. */
  predicate ContinuesHead(request: Event, h: seq<Entry>) {
    request.content.RequestContent?
    && request.content.request.renewal == (if h == [] then None else Some(Link(|h| + 1, Head(h).id)))
  }

  /** The current row is empty, the latest grant, or a request that continues the head. */
  predicate CurrentOk(l: Ledger) {
    match l.current
    case NoEvidence => History(l) == []
    case Granted(record) => LatestGrant(History(l)) == Some(record)
    case Requested(request, _) => ContinuesHead(request, History(l))
  }

  predicate InvariantAt(c: Crypto, id: Identity, l: Ledger, t: int) {
    HistoryOk(c, id, l, t) && CurrentOk(l)
  }

  /** Some clock validates the ledger, and with it every later clock. */
  ghost predicate Invariant(c: Crypto, id: Identity, l: Ledger) {
    exists t :: InvariantAt(c, id, l, t)
  }

  /** A new installation, or one that holds a single initial grant from before the history table. */
  ghost predicate Genesis(c: Crypto, id: Identity, l: Ledger) {
    l == Ledger(NoEvidence, None, [])
    || (l.rows.None? && l.current.Granted? && l.controls == []
        && exists t ::
             RecordOk(c, id, l.current.record, t, false) && l.current.record.request.content.request.renewal.None?)
  }

  lemma GenesisIsInvariant(c: Crypto, id: Identity, l: Ledger)
    requires Genesis(c, id, l)
    ensures Invariant(c, id, l)
  {
    if l.current.Granted? {
      var t :| RecordOk(c, id, l.current.record, t, false) && l.current.record.request.content.request.renewal.None?;
      assert EntryOk(c, id, History(l), 0, t);
      assert InvariantAt(c, id, l, t);
    } else {
      assert InvariantAt(c, id, l, 0);
    }
  }

  lemma RequestKeeps(c: Crypto, id: Identity, l: Ledger, cmd: Command)
    requires cmd.DoRequest? && Attempt(c, id, l, cmd).Some?
    ensures InvariantAt(c, id, Attempt(c, id, l, cmd).value, cmd.now)
    ensures History(Attempt(c, id, l, cmd).value) == History(l)
  {
    hide ChainOk, RequestTermsOk, ValidEvent, HasTags;
  }

  lemma AuthorizeKeeps(c: Crypto, id: Identity, l: Ledger, now: int, e: Event)
    requires Authorize(c, id, l, now, e).Some?
    ensures Authorize(c, id, l, now, e).value != l ==> InvariantAt(c, id, Authorize(c, id, l, now, e).value, now)
    ensures History(l) <= History(Authorize(c, id, l, now, e).value)
  {
    hide ChainOk, RecordOk;
  }

  lemma RevokeKeeps(c: Crypto, id: Identity, l: Ledger, now: int, e: Event)
    requires Revoke(c, id, l, now, e).Some?
    ensures Revoke(c, id, l, now, e).value != l ==> InvariantAt(c, id, Revoke(c, id, l, now, e).value, now)
    ensures History(l) <= History(Revoke(c, id, l, now, e).value)
  {
    hide ChainOk, ValidEvent;
    var h := History(l);
    assert (h + [Revocation(e)])[..|h|] == h;
  }

  /** Every command keeps the invariant, and only ever appends to the history. */
  lemma ApplyKeeps(c: Crypto, id: Identity, l: Ledger, cmd: Command)
    requires Invariant(c, id, l)
    ensures Invariant(c, id, Apply(c, id, l, cmd))
    ensures History(l) <= History(Apply(c, id, l, cmd))
  {
    hide ChainOk, HistoryOk, Request, Authorize, Revoke, CurrentOk;
    var l' := Apply(c, id, l, cmd);
    if Attempt(c, id, l, cmd).Some? {
      match cmd
      case DoRequest(now, _, _, _, _, _, _) => RequestKeeps(c, id, l, cmd);
      case DoAuthorize(now, e) => AuthorizeKeeps(c, id, l, now, e);
      case DoRevoke(now, e) => RevokeKeeps(c, id, l, now, e);
      case DoControl(now, action, reason) =>
        var t :| InvariantAt(c, id, l, t);
        ControlKeeps(c, id, l, t, l');
    }
  }

  lemma ControlKeeps(c: Crypto, id: Identity, l: Ledger, t: int, l': Ledger)
    requires InvariantAt(c, id, l, t) && l'.current == l.current && l'.rows == l.rows
    ensures InvariantAt(c, id, l', t) && History(l') == History(l)
  {
    hide ChainOk;
  }

  lemma {:induction false} RunKeeps(c: Crypto, id: Identity, l: Ledger, cmds: seq<Command>)
    requires Invariant(c, id, l)
    ensures Invariant(c, id, Run(c, id, l, cmds))
    ensures History(l) <= History(Run(c, id, l, cmds))
  {
    hide Invariant, Apply;
    if cmds != [] {
      var before := Run(c, id, l, cmds[..|cmds| - 1]);
      RunKeeps(c, id, l, cmds[..|cmds| - 1]);
      ApplyKeeps(c, id, before, cmds[|cmds| - 1]);
    }
  }

  // ----- The shape of every reachable history

  /** One linear chain, without mention of clocks or keys. */
  ghost predicate WellFormedChain(h: seq<Entry>) {
    && (forall i :: 0 <= i < |h| ==> PlaceOk(h, i))
    && (forall i, j :: 0 <= i <= j < |h| ==> EventOf(h[i]).createdAt <= EventOf(h[j]).createdAt)
  }

  /** An entry's number, predecessor and action: the first is an authorization, later grants are renewals, and
      a revocation follows a grant. */
  ghost predicate PlaceOk(h: seq<Entry>, i: nat)
    requires i < |h|
  {
    var content := EventOf(h[i]).content;
    && IsLifecycleContent(content)
    && SequenceOf(content) == i + 1
    && PreviousOf(content) == (if i == 0 then None else Some(EventOf(h[i - 1]).id))
    && (h[i].Grant? ==> content.GrantContent? && content.grant.renewed == (i > 0))
    && (h[i].Revocation? ==> i > 0 && h[i - 1].Grant?)
  }

  lemma {:induction false} TimesRise(c: Crypto, id: Identity, h: seq<Entry>, now: int, i: nat, j: nat)
    requires ChainOk(c, id, h, now) && i <= j < |h|
    ensures EventOf(h[i]).createdAt <= EventOf(h[j]).createdAt
  {
    hide ValidEvent, RecordOk, RevocationOk;
    if i < j {
      assert EntryOk(c, id, h, j, now);
      TimesRise(c, id, h, now, i, j - 1);
    }
  }

  lemma EntryShape(c: Crypto, id: Identity, h: seq<Entry>, now: int, i: nat)
    requires ChainOk(c, id, h, now) && i < |h|
    ensures IsLifecycleContent(EventOf(h[i]).content) && SequenceOf(EventOf(h[i]).content) == i + 1
    ensures PreviousOf(EventOf(h[i]).content) == if i == 0 then None else Some(EventOf(h[i - 1]).id)
    ensures h[i].Grant? ==> EventOf(h[i]).content.GrantContent? && EventOf(h[i]).content.grant.renewed == (i > 0)
    ensures h[i].Grant? ==> h[i].record.request.content.RequestContent? && RecordOk(c, id, h[i].record, now, false)
    ensures h[i].Revocation? ==> i > 0 && h[i - 1].Grant?
    ensures ValidEvent(c, EventOf(h[i]), now)
  {
    hide ValidEvent, RevocationOk;
    assert EntryOk(c, id, h, i, now);
  }

  lemma PlaceOfEntry(c: Crypto, id: Identity, h: seq<Entry>, now: int, i: nat)
    requires ChainOk(c, id, h, now) && i < |h|
    ensures PlaceOk(h, i)
  {
    hide ChainOk, RecordOk, ValidEvent;
    EntryShape(c, id, h, now, i);
  }

  lemma ValidChainIsWellFormed(c: Crypto, id: Identity, h: seq<Entry>, now: int)
    requires ChainOk(c, id, h, now)
    ensures WellFormedChain(h)
  {
    hide ChainOk, PlaceOk;
    forall i | 0 <= i < |h| ensures PlaceOk(h, i) {
      PlaceOfEntry(c, id, h, now, i);
    }
    forall i, j | 0 <= i <= j < |h| ensures EventOf(h[i]).createdAt <= EventOf(h[j]).createdAt {
      TimesRise(c, id, h, now, i, j);
    }
  }

  /** Every reachable ledger holds one well-formed chain that extends every earlier one, and its current
      row is empty, the latest grant, or a request for exactly the next place in the chain. */
  lemma ReachableLedgers(c: Crypto, id: Identity, l0: Ledger, cmds: seq<Command>, more: seq<Command>)
    requires Genesis(c, id, l0)
    ensures WellFormedChain(History(Run(c, id, l0, cmds)))
    ensures CurrentOk(Run(c, id, l0, cmds))
    ensures History(Run(c, id, l0, cmds)) <= History(Run(c, id, Run(c, id, l0, cmds), more))
  {
    hide ChainOk, WellFormedChain;
    GenesisIsInvariant(c, id, l0);
    RunKeeps(c, id, l0, cmds);
    var l := Run(c, id, l0, cmds);
    var t :| InvariantAt(c, id, l, t);
    ValidChainIsWellFormed(c, id, History(l), t);
    RunKeeps(c, id, l, more);
  }

  // ----- Stale and repeated authorizations

  predicate Accepted(h: seq<Entry>, e: Event) {
    exists i :: 0 <= i < |h| && h[i].Grant? && h[i].record.authorization == e
  }

  /** A command leaves the history alone or appends one entry, numbered next. */
  lemma ApplyAppends(c: Crypto, id: Identity, l: Ledger, cmd: Command)
    ensures History(Apply(c, id, l, cmd)) == History(l)
      || exists x :: History(Apply(c, id, l, cmd)) == History(l) + [x]
                     && (x.Grant? ==>
                           x.record.authorization.content.GrantContent?
                           && x.record.authorization.content.grant.sequence == |History(l)| + 1)
  {
    hide ChainOk, RequestOk, ViewOk, ValidEvent, HistoryOk;
    var h, l' := History(l), Apply(c, id, l, cmd);
    match cmd {
      case DoRequest(_, _, _, _, _, _, _) =>
      case DoAuthorize(now, e) =>
        if l' != l {
          assert History(l') == h + [Grant(l'.current.record)];
        }
      case DoRevoke(now, e) =>
        if l' != l {
          assert History(l') == h + [Revocation(e)];
        }
      case DoControl(_, _, _) =>
    }
  }

  /** An authorization whose place in the chain is taken is refused, and no command accepts it. */
  lemma StaleStep(c: Crypto, id: Identity, l: Ledger, cmd: Command, e: Event)
    requires Invariant(c, id, l) && e.content.GrantContent?
    requires e.content.grant.sequence <= |History(l)| && !Accepted(History(l), e)
    ensures !Accepted(History(Apply(c, id, l, cmd)), e)
    ensures forall now :: Authorize(c, id, l, now, e).None?
  {
    hide ChainOk, RecordOk, RequestOk, ViewOk, ValidEvent, Apply;
    var t :| InvariantAt(c, id, l, t);
    var h := History(l);
    if l.current.Granted? {
      var i :| 0 <= i < |h| && h[i] == Grant(l.current.record);
    }
    ApplyAppends(c, id, l, cmd);
  }

  /** An authorization made stale by a revocation or another grant is never accepted later. */
  lemma {:induction false} StaleForever(c: Crypto, id: Identity, l: Ledger, cmds: seq<Command>, now: int, e: Event)
    requires Invariant(c, id, l) && e.content.GrantContent?
    requires e.content.grant.sequence <= |History(l)| && !Accepted(History(l), e)
    ensures !Accepted(History(Run(c, id, l, cmds)), e)
    ensures Authorize(c, id, Run(c, id, l, cmds), now, e).None?
  {
    hide Invariant, Apply, Accepted, Authorize;
    if cmds == [] {
      StaleStep(c, id, l, DoAuthorize(now, e), e);
    } else {
      var before := Run(c, id, l, cmds[..|cmds| - 1]);
      StaleForever(c, id, l, cmds[..|cmds| - 1], now, e);
      RunKeeps(c, id, l, cmds[..|cmds| - 1]);
      StaleStep(c, id, before, cmds[|cmds| - 1], e);
      RunKeeps(c, id, l, cmds);
      StaleStep(c, id, Run(c, id, l, cmds), DoAuthorize(now, e), e);
    }
  }

  /** Importing an accepted grant or revocation again, at any later point, changes nothing. */
  lemma ReplayChangesNothing(c: Crypto, id: Identity, l: Ledger, cmds: seq<Command>, now: int, e: Event)
    requires Invariant(c, id, l)
    ensures Accepted(History(l), e) ==> Apply(c, id, Run(c, id, l, cmds), DoAuthorize(now, e)) == Run(c, id, l, cmds)
    ensures Revocation(e) in History(l) ==> Apply(c, id, Run(c, id, l, cmds), DoRevoke(now, e)) == Run(c, id, l, cmds)
  {
    hide Invariant, HistoryOk, ViewOk;
    var l' := Run(c, id, l, cmds);
    RunKeeps(c, id, l, cmds);
    if Accepted(History(l), e) {
      var i :| 0 <= i < |History(l)| && History(l)[i].Grant? && History(l)[i].record.authorization == e;
      assert History(l')[i] == History(l)[i];
    }
    if Revocation(e) in History(l) {
      var i :| 0 <= i < |History(l)| && History(l)[i] == Revocation(e);
      assert History(l')[i] == Revocation(e);
    }
  }

  // ----- Round trips

  /** Appending an entry that is in order leaves the entries before it in order. */
  lemma ChainExtends(c: Crypto, id: Identity, h: seq<Entry>, x: Entry, now: int)
    requires ChainOk(c, id, h, now)
    requires EntryOk(c, id, h + [x], |h|, now)
    ensures ChainOk(c, id, h + [x], now)
  {
    hide ValidEvent, RecordOk, RevocationOk;
    forall i | 0 <= i < |h| ensures EntryOk(c, id, h + [x], i, now) {
      assert EntryOk(c, id, h, i, now);
    }
  }

  /** The checks made on an authorization already imply that the extended history revalidates. */
  lemma AuthorizeNeverFailsLate(c: Crypto, id: Identity, l: Ledger, now: int, record: GrantRecord)
    requires HistoryOk(c, id, l, now) && RecordOk(c, id, record, now, true)
    requires SequenceOf(record.authorization.content) == |History(l)| + 1
    requires PreviousOf(record.authorization.content) == HeadId(History(l))
    requires History(l) != [] ==> Head(History(l)).createdAt <= record.authorization.createdAt
    ensures ViewOk(c, id, l.(current := Granted(record), rows := Some(History(l) + [Grant(record)])), now)
  {
    hide ChainOk, ValidEvent, HasTags, RequestTermsOk;
    var h := History(l);
    assert RenewalOk(record.request.content.request.renewal) by {
      RenewalIsChecked(c, id, record, now);
    }
    assert EntryOk(c, id, h + [Grant(record)], |h|, now);
    ChainExtends(c, id, h, Grant(record), now);
  }

  lemma RenewalIsChecked(c: Crypto, id: Identity, record: GrantRecord, now: int)
    requires RecordOk(c, id, record, now, true)
    ensures RenewalOk(record.request.content.request.renewal)
  {
  }

  lemma {:induction false} InsertIsSorted(k: int, kinds: seq<int>)
    requires Ascending(kinds)
    ensures Ascending(Insert(k, kinds))
    ensures forall x :: x in Insert(k, kinds) <==> x == k || x in kinds
  {
    if kinds != [] && kinds[0] < k {
      InsertIsSorted(k, kinds[1..]);
      var rest := Insert(k, kinds[1..]);
      assert forall j :: 0 <= j < |rest| ==> rest[j] in rest;
    }
  }

  /** sorted(set(kinds)) keeps exactly the kinds asked for, each once, in order. */
  lemma {:induction false} SortedKindsIsSorted(kinds: seq<int>)
    ensures Ascending(SortedKinds(kinds))
    ensures forall x :: x in SortedKinds(kinds) <==> x in kinds
  {
    if kinds != [] {
      var init := kinds[..|kinds| - 1];
      SortedKindsIsSorted(init);
      InsertIsSorted(kinds[|kinds| - 1], SortedKinds(init));
      assert kinds == init + [kinds[|kinds| - 1]];
    }
  }

  lemma SortedKindsOk(kinds: seq<int>)
    ensures KindsOk(SortedKinds(kinds)) <==> kinds != [] && forall k :: k in kinds ==> SupportedKind(k)
  {
    hide Ascending;
    SortedKindsIsSorted(kinds);
    var sorted := SortedKinds(kinds);
    forall k | k in kinds ensures k in sorted {
      assert k in SortedKinds(kinds);
    }
    if kinds != [] {
      assert kinds[0] in kinds;
    }
    if sorted != [] {
      assert sorted[0] in kinds;
    }
    forall i | 0 <= i < |sorted| ensures sorted[i] in kinds {
      assert sorted[i] in sorted;
    }
  }

  /** A request is granted a place in line exactly under these conditions on its arguments, the clock and
      the head; what the service signs then passes its own later check. */
  lemma RequestSucceedsIff(c: Crypto, id: Identity, l: Ledger, cmd: Command)
    requires Sound(c) && IsLowerHex(id.service, 64) && cmd.DoRequest?
    ensures Attempt(c, id, l, cmd).Some? <==>
      && 0 < cmd.validFor <= 31536000 && 0 < Utf8Length(cmd.policy) <= 262144
      && HistoryOk(c, id, l, cmd.now) && (History(l) != []) == cmd.renew
      && (cmd.renew ==> Head(History(l)).createdAt <= cmd.now)
      && cmd.kinds != [] && (forall k :: k in cmd.kinds ==> k == 1415 || k == 1416)
      && IsLowerHex(cmd.nonce, 64)
  {
    hide ChainOk, ValidEvent, IsLowerHex, Utf8Length, KindsOk, SortedKinds;
    var h := History(l);
    SortedKindsOk(cmd.kinds);
    if (h != []) == cmd.renew {
      var b := RequestTerms(c, id, h, cmd.now, cmd.policy, cmd.validFor, cmd.kinds, cmd.renew, cmd.nonce);
      SignedIsValid(c, Unsigned(id.service, b.issuedAt, REQUEST_KIND, RequestTags(id, b.expiresAt),
        RequestContent(b)), cmd.salt, cmd.now);
      if cmd.renew && HistoryOk(c, id, l, cmd.now) {
        EntryShape(c, id, h, cmd.now, |h| - 1);
        HeadIsHex(c, h, cmd.now);
      }
    }
  }

  lemma HeadIsHex(c: Crypto, h: seq<Entry>, now: int)
    requires h != [] && ValidEvent(c, Head(h), now)
    ensures IsLowerHex(Head(h).id, 64)
  {
  }

  /** The operator's signature over the offered template, made at second `signedAt`. */
  function SignTemplate(c: Crypto, request: Event, signedAt: int, salt: string): Event
    requires request.content.RequestContent?
  {
    Signed(c, AuthorizationTemplate(request, signedAt), salt)
  }

  /** A template signed at any time is acceptable evidence exactly inside the request's window. */
  lemma SignedTemplateIsOk(c: Crypto, id: Identity, request: Event, policy: string, asked: int, now: int,
    signedAt: int, salt: string)
    requires Sound(c) && IsLowerHex(id.operator, 64)
    requires RequestOk(c, id, request, policy, asked, true) && asked <= now
    ensures RecordOk(c, id, GrantRecord(request, policy, SignTemplate(c, request, signedAt, salt)), now, true)
      <==> request.createdAt <= signedAt < request.content.request.expiresAt
           && now < request.content.request.expiresAt && signedAt <= now + MAX_CLOCK_SKEW
  {
    hide RequestTermsOk, IsLowerHex, Sound;
    var e := SignTemplate(c, request, signedAt, salt);
    assert request.content.request.requestedOperator == id.operator by {
      OperatorIsChecked(c, id, request, policy, asked);
    }
    SignedIsValid(c, AuthorizationTemplate(request, signedAt), salt, now);
  }

  lemma OperatorIsChecked(c: Crypto, id: Identity, request: Event, policy: string, asked: int)
    requires RequestOk(c, id, request, policy, asked, true)
    ensures request.content.request.requestedOperator == id.operator
  {
  }

  /** After a request, the grant signed from its template is accepted exactly when it was signed within
      [request time, deadline), reaches the relay before the deadline, and is not dated more than five
      minutes ahead of the relay's clock; it then becomes the head. */
  lemma RequestThenAuthorize(c: Crypto, id: Identity, l: Ledger, cmd: Command, now: int, signedAt: int, salt: string)
    requires Sound(c) && IsLowerHex(id.operator, 64)
    requires cmd.DoRequest? && Attempt(c, id, l, cmd).Some? && cmd.now <= now
    ensures var l1 := Attempt(c, id, l, cmd).value;
      l1.current.Requested? && l1.current.request.content.RequestContent?
      && var request := l1.current.request;
         var e := SignTemplate(c, request, signedAt, salt);
         var result := Authorize(c, id, l1, now, e);
         (result.Some? <==> request.createdAt <= signedAt < request.content.request.expiresAt
                            && now < request.content.request.expiresAt && signedAt <= now + MAX_CLOCK_SKEW)
         && (result.Some? ==> History(result.value) == History(l) + [Grant(GrantRecord(request, l1.current.policy, e))]
                              && result.value.current == Granted(GrantRecord(request, l1.current.policy, e)))
  {
    hide ChainOk, ValidEvent, HasTags, RequestTermsOk, ViewOk, IsLowerHex, Sound;
    var l1 := Attempt(c, id, l, cmd).value;
    RequestKeeps(c, id, l, cmd);
    var request, h := l1.current.request, History(l1);
    var e := SignTemplate(c, request, signedAt, salt);
    SignedTemplateIsOk(c, id, request, l1.current.policy, cmd.now, now, signedAt, salt);
    HistoryStaysOk(c, id, l1, cmd.now, now);
    TemplateFollowsHead(c, id, l1, cmd.now, e);
    var record := GrantRecord(request, l1.current.policy, e);
    if RecordOk(c, id, record, now, true) {
      assert h != [] ==> Head(h).createdAt <= e.createdAt;
      AuthorizeNeverFailsLate(c, id, l1, now, record);
    }
  }

  /** A new installation's request for an hour's permission. */
  function HourRequest(now: int, nonce: string, salt: string): Command {
    DoRequest(now, "policy", 3600, [1415], false, nonce, salt)
  }

  const UNTOUCHED := Ledger(NoEvidence, None, [])

  /** The window of a request does not suffice: for any sound primitives, a template signed 301 seconds ahead of
      the relay's clock, well inside [request time, deadline), is refused before the deadline, while one signed
      300 seconds ahead is accepted. */
  lemma SkewedSignatureIsRefused(c: Crypto, id: Identity, now: int, nonce: string, salt: string)
    requires Sound(c) && IsLowerHex(id.service, 64) && IsLowerHex(id.operator, 64) && IsLowerHex(nonce, 64)
    ensures Attempt(c, id, UNTOUCHED, HourRequest(now, nonce, salt)).Some?
    ensures var l := Attempt(c, id, UNTOUCHED, HourRequest(now, nonce, salt)).value;
      l.current.Requested? && l.current.request.content.RequestContent?
      && var request := l.current.request;
      && request.createdAt <= now + 301 < request.content.request.expiresAt
      && Authorize(c, id, l, now, SignTemplate(c, request, now + 301, salt)).None?
      && Authorize(c, id, l, now, SignTemplate(c, request, now + 300, salt)).Some?
  {
    hide Sound, ValidEvent, ViewOk, Authorize;
    var cmd := HourRequest(now, nonce, salt);
    assert PolicyOk("policy");
    RequestSucceedsIff(c, id, UNTOUCHED, cmd);
    RequestThenAuthorize(c, id, UNTOUCHED, cmd, now, now + 301, salt);
    RequestThenAuthorize(c, id, UNTOUCHED, cmd, now, now + 300, salt);
  }

  lemma TemplateFollowsHead(c: Crypto, id: Identity, l: Ledger, t: int, e: Event)
    requires InvariantAt(c, id, l, t) && l.current.Requested?
    requires e.content == GrantContent(GrantTerms(l.current.request, l.current.request.content.request, e.createdAt))
    ensures SequenceOf(e.content) == |History(l)| + 1 && PreviousOf(e.content) == HeadId(History(l))
    ensures !Accepted(History(l), e)
  {
    hide ValidEvent, RecordOk, RevocationOk;
    var h := History(l);
    forall i | 0 <= i < |h| && h[i].Grant? ensures h[i].record.authorization != e {
      assert EntryOk(c, id, h, i, t);
    }
  }

  /** The permission a grant conveys is a non-empty window of at most one year. */
  lemma PermissionWindow(c: Crypto, id: Identity, r: GrantRecord, now: int)
    requires RecordOk(c, id, r, now, false)
    ensures var b := r.request.content.request;
      0 < b.notAfter - Max(b.notBefore, r.authorization.createdAt) <= 31536000
  {
    hide ValidEvent, HasTags, KindsOk, PolicyOk, IsLowerHex;
  }

  /** A signed revocation template of the head is accepted exactly when the head is a grant, the reason is
      in bounds, and the revocation is dated between the head's time and the relay's clock. */
  lemma RevocationRoundTrip(c: Crypto, id: Identity, l: Ledger, t: int, now: int, reason: string, signedAt: int,
    salt: string)
    requires Sound(c) && IsLowerHex(id.operator, 64)
    requires InvariantAt(c, id, l, t) && t <= now && History(l) != []
    requires IsLifecycleContent(Head(History(l)).content)
    ensures var e := Signed(c, RevocationTemplate(id, Head(History(l)), reason, signedAt), salt);
      var result := Revoke(c, id, l, now, e);
      (result.Some? <==>
         History(l)[|History(l)| - 1].Grant? && ReasonOk(reason) && Head(History(l)).createdAt <= signedAt <= now)
      && (result.Some? ==> History(result.value) == History(l) + [Revocation(e)]
                           && result.value.current == Granted(LatestGrant(History(l)).value)
                           && !ViewOf(c, id, result.value, now).Permitted())
  {
    hide ChainOk, ValidEvent, IsLowerHex, Sound, ReasonOk;
    var h := History(l);
    var u := RevocationTemplate(id, Head(h), reason, signedAt);
    var e := Signed(c, u, salt);
    SignedIsValid(c, u, salt, now);
    HistoryStaysOk(c, id, l, t, now);
    EntryShape(c, id, h, now, |h| - 1);
    RevocationIsNew(c, id, h, now, e);
    var extended := h + [Revocation(e)];
    if EntryOk(c, id, extended, |h|, now) {
      ChainExtends(c, id, h, Revocation(e), now);
    } else {
      assert !ChainOk(c, id, extended, now) by {
        NotInOrder(c, id, extended, |h|, now);
      }
    }
  }

  lemma NotInOrder(c: Crypto, id: Identity, h: seq<Entry>, i: nat, now: int)
    requires i < |h| && !EntryOk(c, id, h, i, now)
    ensures !ChainOk(c, id, h, now)
  {
  }

  lemma RevocationIsNew(c: Crypto, id: Identity, h: seq<Entry>, now: int, e: Event)
    requires ChainOk(c, id, h, now)
    requires e.content.RevocationContent? && e.content.revocation.sequence == |h| + 1
    ensures Revocation(e) !in h
  {
    hide ValidEvent, RecordOk, RevocationOk;
    forall i | 0 <= i < |h| ensures h[i] != Revocation(e) {
      assert EntryOk(c, id, h, i, now);
    }
  }

  // ----- Permission

  /** Witnessing is permitted at second `now` exactly when the head is a grant whose window holds `now`
      and the last local control, if any, is not a suspension. */
  lemma PermittedIff(c: Crypto, id: Identity, l: Ledger, now: int)
    requires ViewOk(c, id, l, now)
    ensures ViewOf(c, id, l, now).Permitted() <==>
      var h := History(l);
      h != [] && h[|h| - 1].Grant? && !Suspended(l)
      && h[|h| - 1].record.request.content.RequestContent?
      && var b := h[|h| - 1].record.request.content.request;
         Max(b.notBefore, h[|h| - 1].record.authorization.createdAt) <= now < b.notAfter
  {
    hide ChainOk, RecordOk;
    var h := History(l);
    if h != [] {
      LatestGrantIsOk(c, id, h, now);
      EntryShape(c, id, h, now, |h| - 1);
    }
  }

  /** A local control is recorded exactly when its reason is in bounds, the evidence checks out and, to
      resume, the head is a grant whose window holds the present second: resuming creates no authority. */
  lemma ControlSucceedsIff(c: Crypto, id: Identity, l: Ledger, now: int, action: Action, reason: string)
    requires ViewOk(c, id, l, now)
    ensures SetControl(c, id, l, now, action, reason).Some? <==>
      1 <= |Strip(reason)| <= 512
      && (action.Resume? ==>
            var h := History(l);
            h != [] && h[|h| - 1].Grant? && h[|h| - 1].record.request.content.RequestContent?
            && var b := h[|h| - 1].record.request.content.request;
               Max(b.notBefore, h[|h| - 1].record.authorization.createdAt) <= now < b.notAfter)
    ensures SetControl(c, id, l, now, action, reason).Some? ==>
      Suspended(SetControl(c, id, l, now, action, reason).value) == action.Suspend?
  {
    hide ChainOk, RecordOk, Strip;
    var h := History(l);
    if h != [] {
      LatestGrantIsOk(c, id, h, now);
      EntryShape(c, id, h, now, |h| - 1);
    }
  }

  lemma OnlyControlsControl(c: Crypto, id: Identity, l: Ledger, cmd: Command)
    ensures !cmd.DoControl? ==> Apply(c, id, l, cmd).controls == l.controls
    ensures cmd.DoControl? && Apply(c, id, l, cmd) != l ==>
      Apply(c, id, l, cmd).controls == l.controls + [Control(cmd.action, cmd.reason, cmd.now)]
  {
    hide HistoryOk, ViewOk, RecordOk, RequestOk, ValidEvent;
  }

  /** Requests, grants and revocations never lift a suspension; only a resume command can. */
  lemma {:induction false} SuspensionOutlivesAuthority(c: Crypto, id: Identity, l: Ledger, cmds: seq<Command>)
    requires Suspended(l)
    requires forall cmd :: cmd in cmds && cmd.DoControl? ==> cmd.action.Suspend?
    ensures Suspended(Run(c, id, l, cmds))
  {
    hide Apply;
    if cmds != [] {
      SuspensionOutlivesAuthority(c, id, l, cmds[..|cmds| - 1]);
      OnlyControlsControl(c, id, Run(c, id, l, cmds[..|cmds| - 1]), cmds[|cmds| - 1]);
      assert cmds[|cmds| - 1] in cmds;
    }
  }
}
