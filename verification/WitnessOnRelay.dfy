/** The witness inside the relay: each of its operations is a sequence of moves of the delivery model. */
module WitnessOnRelay {
  import opened Text
  import opened Events
  import opened Filters
  import opened Store
  import opened Lifecycle
  import opened Witnessing
  import opened WitnessingFacts
  import opened Runs
  import opened Subjects
  import Relay

  /** The moves an operation amounts to; publication k is new. Announcing a submitted event is left to its
      handler. */
  function MovesOf(c: Crypto, id: Identity, w: World, op: Op, k: nat): seq<Relay.Move> {
    match op
    case Submit(e, rd, raises) =>
      if raises then []
      else [Relay.Receive(k, e), Relay.Save(k, Observe(c, id, w, e, rd).1, w.settings.queueLimit, None)]
    case IssueJob(d, rd, salt, raises) =>
      if raises then []
      else (match Decide(c, id, w, d, rd, salt).1
            case Refused => [Relay.Update(d, true)]
            case Issued(receipt) => [Relay.Receive(k, receipt), Relay.Save(k, None, 1000, Some(d))]
            case _ => [])
    case Send(_, _) => if Emitted(w, op).Some? then [Relay.Recall(k, Emitted(w, op).value.id), Relay.Announce(k)]
      else []
    case Mark(d) => if w.worker.sent == Some(d) then [Relay.Update(d, false)] else []
    case _ => []
  }

  /** Everyone with an open matching subscription got the event. */
  predicate ReachedAll(before: Relay.Connections, after: Relay.RelayState, e: Event) {
    forall r :: r in Relay.Recipients(before, e) ==> (r, e.id) in after.sent
  }

  lemma AfterOne(s: Relay.RelayState, m: Relay.Move)
    requires Relay.RelayOk(s)
    ensures TablesOk(s.tables) && Relay.After(s, [m]) == Relay.Moved(s, m) && Relay.RelayOk(Relay.Moved(s, m))
  {
    hide Relay.RelayOk, Relay.Moved, TablesOk;
    Relay.TablesAreOk(s);
    Relay.MoveKeeps(s, m);
    assert [m][..0] == [];
    assert Relay.After(s, []) == s;
  }

  lemma AfterTwo(s: Relay.RelayState, m: Relay.Move, m': Relay.Move)
    requires Relay.RelayOk(s)
    ensures TablesOk(s.tables) && Relay.RelayOk(Relay.Moved(s, m)) && TablesOk(Relay.Moved(s, m).tables)
    ensures Relay.After(s, [m, m']) == Relay.Moved(Relay.Moved(s, m), m')
  {
    hide Relay.RelayOk, Relay.Moved, TablesOk;
    AfterOne(s, m);
    Relay.TablesAreOk(Relay.Moved(s, m));
    assert [m, m'][..1] == [m];
  }

  lemma SaveMoves(s: Relay.RelayState, k: nat, e: Event, job: Option<Job>, queueLimit: int, completed: Option<string>)
    requires Relay.RelayOk(s) && k !in s.publications && WellFormed(e)
    ensures Relay.After(s, [Relay.Receive(k, e), Relay.Save(k, job, queueLimit, completed)]).tables
      == if EventFits(e) then SaveTables(s.tables, e, job, queueLimit, completed) else s.tables
  {
    hide Relay.RelayOk, Relay.After, TablesOk, SaveTables, EventFits, WellFormed;
    AfterTwo(s, Relay.Receive(k, e), Relay.Save(k, job, queueLimit, completed));
  }

  /** A stored event recalled and announced reaches everyone whose filters match it. */
  lemma RecallMoves(s: Relay.RelayState, k: nat, x: string)
    requires Relay.RelayOk(s) && k !in s.publications && x in s.tables.events
    ensures var s' := Relay.After(s, [Relay.Recall(k, x), Relay.Announce(k)]);
      s'.tables == s.tables && s.tables.events[x].id == x && ReachedAll(s.conns, s', s.tables.events[x])
      && k in s'.publications && Relay.Announced(s'.publications[k])
  {
    hide Relay.RelayOk, Relay.After, Relay.Recipients, TagsIndexed;
    AfterTwo(s, Relay.Recall(k, x), Relay.Announce(k));
  }

  lemma SameRecipients(conns: Relay.Connections, a: Event, b: Event)
    requires a.Unsealed() == b.Unsealed()
    ensures Relay.Recipients(conns, a) == Relay.Recipients(conns, b)
  {
    forall f ensures Matches(a, f) <==> Matches(b, f) {
    }
  }

  /** Each operation of the witness is a sequence of moves of the delivery model: from any relay state in order
      with the same tables, whoever is connected, the moves leave the same tables as the operation, and a receipt
      it sends reaches every open subscription that matches it, or exhibits a collision. */
  lemma OperationIsMoves(c: Crypto, id: Identity, w: World, op: Op, s: Relay.RelayState, k: nat)
    requires Relay.RelayOk(s) && s.tables == w.tables && k !in s.publications
    requires JobsOk(w.tables) && WorkerOk(w) && IdsOk(c, w.tables) && (op.Submit? ==> WellFormed(op.event))
    ensures var s' := Relay.After(s, MovesOf(c, id, w, op, k));
      Relay.RelayOk(s') && s'.tables == Next(c, id, w, op).tables
    ensures var sent := Emitted(w, op);
      sent.Some? ==>
        sent.value.id in w.tables.events
        && (ReachedAll(s.conns, Relay.After(s, MovesOf(c, id, w, op, k)), sent.value)
            || IdCollision(c, w.tables.events[sent.value.id].Payload(), sent.value.Payload()))
  {
    hide Relay.RelayOk, Relay.After, Relay.Recipients, JobsOk, WorkerOk, IdsOk, WellFormed, TablesOk, Observe, Decide,
      SaveTables, UpdateJob, Apply;
    assert Relay.After(s, []) == s by {
      AfterNone(s);
    }
    match op
    case Submit(e, rd, raises) => SaveMoves(s, k, e, Observe(c, id, w, e, rd).1, w.settings.queueLimit, None);
    case IssueJob(d, rd, salt, raises) =>
      var outcome := Decide(c, id, w, d, rd, salt).1;
      AfterOne(s, Relay.Update(d, true));
      if outcome.Issued? {
        IssuedIsStorable(c, id, w, d, rd, salt);
        SaveMoves(s, k, outcome.receipt, None, 1000, Some(d));
      }
    case Mark(d) => AfterOne(s, Relay.Update(d, false));
    case Send(d, _) =>
      if Emitted(w, op).Some? {
        var receipt := Emitted(w, op).value;
        EmittedIsStored(c, w, op);
        RecallMoves(s, k, receipt.id);
        if w.tables.events[receipt.id].Unsealed() == receipt.Unsealed() {
          SameRecipients(s.conns, w.tables.events[receipt.id], receipt);
        }
      }
    case _ =>
  }

  lemma AfterNone(s: Relay.RelayState)
    requires Relay.RelayOk(s)
    ensures Relay.After(s, []) == s
  {
  }

  /** A receipt the worker sends is a stored event, up to its signature. */
  lemma EmittedIsStored(c: Crypto, w: World, op: Op)
    requires JobsOk(w.tables) && WorkerOk(w) && IdsOk(c, w.tables) && Emitted(w, op).Some?
    ensures StoredUpToSignature(c, w.tables, Emitted(w, op).value)
  {
    hide JobsOk, StoredUpToSignature;
    var d := op.digest;
    assert HeldRowOk(w.worker.rows[d], w.tables.jobs[d]);
    RowOfJob(w.tables, d);
    assert RowIdsOk(c, w.tables.jobs[d]);
    SealedByOneId(c, w.tables, Emitted(w, op).value);
  }
}
