/** The administrative object: each command validates the whole history, changes its tables, and rolls
    everything back if any check after that fails. */
module WitnessAuthority {
  import opened Text
  import opened Events
  import opened Lifecycle

  class WitnessAuthorization {
    const crypto: Crypto
    const identity: Identity
    var current: Current
    var rows: Option<seq<Entry>>
    var controls: seq<Control>

    constructor (crypto: Crypto, identity: Identity, stored: Ledger)
      ensures this.crypto == crypto && this.identity == identity && State() == stored
    {
      this.crypto, this.identity := crypto, identity;
      current, rows, controls := stored.current, stored.rows, stored.controls;
    }

    function State(): Ledger
      reads this
    {
      Ledger(current, rows, controls)
    }

    /** What a command leaves behind: the ledger of its specification, or the one it found. */
    ghost predicate Committed(result: Option<Ledger>, before: Ledger, ok: bool)
      reads this
    {
      ok == result.Some? && State() == if result.Some? then result.value else before
    }

    /** One entry of the history, checked against the entry before it. */
    method ValidateEntry(h: seq<Entry>, i: nat, previous: Option<Event>, now: int) returns (ok: bool)
      requires i < |h| && previous == if i == 0 then None else Some(EventOf(h[i - 1]))
      requires i > 0 ==> IsLifecycleContent(EventOf(h[i - 1]).content)
      ensures ok == EntryOk(crypto, identity, h, i, now)
    {
      var e := EventOf(h[i]);
      if !ValidEvent(crypto, e, now) || !IsLifecycleContent(e.content) {
        return false;
      }
      var expected := if previous.None? then None else Some(previous.value.id);
      if SequenceOf(e.content) != i + 1 || PreviousOf(e.content) != expected {
        return false;
      }
      if previous.Some? && e.createdAt < previous.value.createdAt {
        return false;
      }
      match h[i]
      case Grant(record) =>
        ok := RecordOk(crypto, identity, record, now, false) && record.authorization.content.grant.renewed == (i > 0);
      case Revocation(event) =>
        ok := previous.Some? && h[i - 1].Grant? && RevocationOk(identity, event, previous.value);
    }

    /** _validate_history: the loop accepts exactly the histories of the declarative chain condition. */
    method ValidateHistory(now: int) returns (ok: bool)
      ensures ok == HistoryOk(crypto, identity, State(), now)
    {
      hide ValidEvent, RecordOk, RevocationOk;
      var h := History(State());
      var previous: Option<Event> := None;
      for i := 0 to |h|
        invariant previous == if i == 0 then None else Some(EventOf(h[i - 1]))
        invariant forall j :: 0 <= j < i ==> EntryOk(crypto, identity, h, j, now)
      {
        assert i > 0 ==> EntryOk(crypto, identity, h, i - 1, now);
        ok := ValidateEntry(h, i, previous, now);
        if !ok {
          return;
        }
        previous := Some(EventOf(h[i]));
      }
      ok := !current.Granted? || h == [] || LatestGrant(h) == Some(current.record);
    }

    /** _view: None when the history or the pending request does not check out. */
    method View(now: int) returns (view: Option<View>)
      ensures view.Some? <==> ViewOk(crypto, identity, State(), now)
      ensures view.Some? ==> view.value == ViewOf(crypto, identity, State(), now)
    {
      var ok := ValidateHistory(now);
      if ok && current.Requested? {
        ok := RequestOk(crypto, identity, current.request, current.policy, now, false);
      }
      view := if ok then Some(ViewOf(crypto, identity, State(), now)) else None;
    }

    method Rollback(before: Ledger)
      modifies this
      ensures State() == before
    {
      current, rows, controls := before.current, before.rows, before.controls;
    }

    /** _append: creates the history table on first use, importing a legacy grant unchanged. */
    method Append(h: seq<Entry>, entry: Entry)
      modifies `rows
      ensures rows == Some(h + [entry])
    {
      rows := Some(h + [entry]);
    }

    method Request(now: int, policy: string, validFor: int, kinds: seq<int>, renew: bool, nonce: string, salt: string)
      returns (ok: bool)
      modifies this
      ensures Committed(Lifecycle.Request(crypto, identity, old(State()), now, policy, validFor, kinds, renew, nonce,
        salt), old(State()), ok)
    {
      if !(0 < validFor <= MAX_VALIDITY) || !PolicyOk(policy) {
        return false;
      }
      ok := ValidateHistory(now);
      if !ok {
        return;
      }
      var h := History(State());
      if (h != [] && !renew) || (renew && h == []) || (renew && now < Head(h).createdAt) {
        return false;
      }
      var request := RequestEvent(crypto, identity,
        RequestTerms(crypto, identity, h, now, policy, validFor, kinds, renew, nonce), salt);
      if !RequestOk(crypto, identity, request, policy, now, true) {
        return false;
      }
      if h != [] && rows.None? {
        Append([], h[0]);
        assert [] + [h[0]] == h;
      }
      current := Requested(request, policy);
    }

    method Authorize(now: int, e: Event) returns (ok: bool)
      modifies this
      ensures Committed(Lifecycle.Authorize(crypto, identity, old(State()), now, e), old(State()), ok)
    {
      hide ChainOk, ValidEvent, RequestOk;
      ok := ValidateHistory(now);
      if !ok {
        return;
      }
      var before, h := State(), History(State());
      if !(exists i :: 0 <= i < |h| && h[i].Grant? && h[i].record.authorization == e) {
        match current
        case NoEvidence =>
          return false;
        case Granted(record) =>
          if record.authorization != e || !RecordOk(crypto, identity, record, now, false) {
            return false;
          }
        case Requested(request, policy) =>
          var record := GrantRecord(request, policy, e);
          if !RecordOk(crypto, identity, record, now, true)
            || SequenceOf(e.content) != |h| + 1 || PreviousOf(e.content) != HeadId(h)
            || (h != [] && e.createdAt < Head(h).createdAt) {
            return false;
          }
          Append(h, Grant(record));
          current := Granted(record);
      }
      var view := View(now);
      ok := view.Some?;
      if !ok {
        Rollback(before);
      }
    }

    method Revoke(now: int, e: Event) returns (ok: bool)
      modifies this
      ensures Committed(Lifecycle.Revoke(crypto, identity, old(State()), now, e), old(State()), ok)
    {
      ok := ValidateHistory(now);
      if !ok {
        return;
      }
      var before, h := State(), History(State());
      if Revocation(e) !in h {
        if !ValidEvent(crypto, e, now) || e.createdAt > now {
          return false;
        }
        Append(h, Revocation(e));
        ok := ValidateHistory(now);
        if !ok || LatestGrant(h).None? {
          Rollback(before);
          return false;
        }
        current := Granted(LatestGrant(h).value);
      }
      var view := View(now);
      ok := view.Some?;
      if !ok {
        Rollback(before);
      }
    }

    method SetControl(now: int, action: Action, reason: string) returns (ok: bool)
      modifies this
      ensures Committed(Lifecycle.SetControl(crypto, identity, old(State()), now, action, reason), old(State()), ok)
    {
      if !ReasonOk(reason) {
        return false;
      }
      var view := View(now);
      if view.None? || (action.Resume? && !view.value.authorizationState.Authorized?) {
        return false;
      }
      controls := controls + [Control(action, reason, now)];
      ok := true;
    }
  }
}
