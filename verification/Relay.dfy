/** Live delivery: publication and subscription handlers interleaving at their await points. */
module Relay {
  import opened Text
  import opened Events
  import opened Filters
  import opened Ordering
  import opened Store

  /** A registered subscription; `request` numbers the REQ that registered it. */
  datatype Subscription = Subscription(filters: seq<Filter>, request: nat)

  /** Open connections and their subscriptions by name. */
  type Connections = map<nat, map<string, Subscription>>

  function Drop(conns: Connections, conn: nat, name: string): Connections {
    if conn in conns then conns[conn := conns[conn] - {name}] else conns
  }

  function Add(conns: Connections, conn: nat, name: string, sub: Subscription): Connections {
    if conn in conns then conns[conn := conns[conn][name := sub]] else conns
  }

  predicate Open(conns: Connections, conn: nat, name: string, sub: Subscription) {
    conn in conns && name in conns[conn] && conns[conn][name] == sub
  }

  /** The requests whose subscriptions match an event, wherever they are registered. */
  function Recipients(conns: Connections, e: Event): set<nat> {
    set conn, name | conn in conns && name in conns[conn] && MatchesAny(e, conns[conn][name].filters) ::
      conns[conn][name].request
  }

  // ----- Handlers in progress

  /** An EVENT handler, or the worker publishing a receipt: before its save, between save and broadcast, or done. */
  datatype Publication = Received(event: Event) | Stored(event: Event) | Closed(event: Event, inserted: bool)

  /** A REQ handler. `snapshot` is the store its query saw, `rest` what it has yet to replay. */
  datatype Request =
    | Asked(conn: nat, name: string, filters: seq<Filter>)
    | Subscribed(conn: nat, name: string, filters: seq<Filter>)
    | Replaying(conn: nat, name: string, filters: seq<Filter>, snapshot: Tables, rest: seq<Event>)
    | Replayed(conn: nat, name: string, filters: seq<Filter>, snapshot: Tables)
    | Rejected(conn: nat, name: string, filters: seq<Filter>)
  {
    predicate Queried() {
      Replaying? || Replayed?
    }
  }

  datatype RelayState = RelayState(
    tables: Tables, conns: Connections, publications: map<nat, Publication>, requests: map<nat, Request>,
    sent: set<(nat, string)>)

  /** The moves of the handlers and of the witness worker. The worker saves a receipt as a handler saves an event,
      recalls a stored receipt to announce it, perhaps again after a restart, and updates job rows. */
  datatype Move =
    | Connect(conn: nat)
    | Disconnect(conn: nat)
    | Receive(k: nat, event: Event)
    | Save(k: nat, job: Option<Job>, queueLimit: int, completed: Option<string>)
    | Recall(k: nat, id: string)
    | Update(digest: string, unavailable: bool)
    | Announce(k: nat)
    | Ask(k: nat, conn: nat, name: string, filters: seq<Filter>)
    | Register(k: nat, tooMany: bool)
    | Query(k: nat)
    | QueryFails(k: nat)
    | Replay(k: nat)
    | Close(conn: nat, name: string)

  ghost function Moved(s: RelayState, m: Move): RelayState
    requires TablesOk(s.tables)
  {
    match m
    case Connect(conn) => s.(conns := s.conns[conn := map[]])
    case Disconnect(conn) => s.(conns := s.conns - {conn})
    case Close(conn, name) => s.(conns := Drop(s.conns, conn, name))
    case Receive(k, event) =>
      if k in s.publications || !WellFormed(event) then s else s.(publications := s.publications[k := Received(event)])
    case Save(k, job, queueLimit, completed) =>
      if k !in s.publications || !s.publications[k].Received? then s
      else Saving(s, k, s.publications[k].event, job, queueLimit, completed)
    case Recall(k, id) =>
      if k in s.publications || id !in s.tables.events then s
      else s.(publications := s.publications[k := Stored(s.tables.events[id])])
    case Update(digest, unavailable) => s.(tables := UpdateJob(s.tables, digest, unavailable))
    case Announce(k) =>
      if k !in s.publications || !s.publications[k].Stored? then s
      else
        var e := s.publications[k].event;
        s.(publications := s.publications[k := Closed(e, true)],
          sent := s.sent + set r | r in Recipients(s.conns, e) :: (r, e.id))
    case Ask(k, conn, name, filters) =>
      if k in s.requests then s else s.(requests := s.requests[k := Asked(conn, name, filters)])
    case Register(k, tooMany) =>
      if k !in s.requests || !s.requests[k].Asked? then s else Registering(s, k, s.requests[k], tooMany)
    case Query(k) =>
      if k !in s.requests || !s.requests[k].Subscribed? then s
      else
        var q := s.requests[k];
        s.(requests := s.requests[k := Replaying(q.conn, q.name, q.filters, s.tables, Scan(s.tables, q.filters))])
    case QueryFails(k) =>
      if k !in s.requests || !s.requests[k].Subscribed? then s
      else
        var q := s.requests[k];
        s.(requests := s.requests[k := Rejected(q.conn, q.name, q.filters)], conns := Drop(s.conns, q.conn, q.name))
    case Replay(k) =>
      if k !in s.requests || !s.requests[k].Replaying? then s else ReplayNext(s, k, s.requests[k])
  }

  /** The storage step of an EVENT handler: a new event goes on to be announced. */
  function Saving(s: RelayState, k: nat, e: Event, job: Option<Job>, queueLimit: int,
    completed: Option<string>): RelayState {
    if !EventFits(e) then s.(publications := s.publications[k := Closed(e, false)])
    else s.(tables := SaveTables(s.tables, e, job, queueLimit, completed),
            publications := s.publications[k := if e.id in s.tables.events then Closed(e, false) else Stored(e)])
  }

  /** The registration step of a REQ handler: the old subscription of that name goes in any case, and the
      request is rejected if it listed too many filters or the normalized ones are out of bounds. */
  function Registering(s: RelayState, k: nat, q: Request, tooMany: bool): RelayState {
    var dropped := Drop(s.conns, q.conn, q.name);
    if q.conn !in s.conns || tooMany || !InBounds(q.filters) then
      s.(conns := dropped, requests := s.requests[k := Rejected(q.conn, q.name, q.filters)])
    else
      s.(conns := Add(dropped, q.conn, q.name, Subscription(q.filters, k)),
         requests := s.requests[k := Subscribed(q.conn, q.name, q.filters)])
  }

  /** One replayed event, or the end of the replay. */
  function ReplayNext(s: RelayState, k: nat, q: Request): RelayState
    requires q.Replaying?
  {
    if q.rest == [] then s.(requests := s.requests[k := Replayed(q.conn, q.name, q.filters, q.snapshot)])
    else s.(requests := s.requests[k := q.(rest := q.rest[1..])], sent := s.sent + {(k, q.rest[0].id)})
  }

  // ----- The invariant

  predicate Announceable(p: Publication) {
    p.Stored? || (p.Closed? && p.inserted)
  }

  predicate Announced(p: Publication) {
    p.Closed? && p.inserted
  }

  /** Announced and announceable events are stored as they were published. */
  ghost predicate PublishedAreStored(pubs: map<nat, Publication>, events: map<string, Event>) {
    forall k :: k in pubs && Announceable(pubs[k]) ==>
      pubs[k].event.id in events && events[pubs[k].event.id] == pubs[k].event
  }

  ghost predicate PublicationsWellFormed(pubs: map<nat, Publication>) {
    forall k :: k in pubs ==> WellFormed(pubs[k].event)
  }

  /** An open subscription belongs to the request that registered it under that name. */
  ghost predicate OpenAreRegistered(conns: Connections, requests: map<nat, Request>) {
    forall conn, name :: conn in conns && name in conns[conn] ==> Registered(conn, name, conns[conn][name], requests)
  }

  predicate Registered(conn: nat, name: string, sub: Subscription, requests: map<nat, Request>) {
    sub.request in requests
    && var q := requests[sub.request];
       (q.Subscribed? || q.Queried()) && q.conn == conn && q.name == name && q.filters == sub.filters
  }

  /** What a query found is sent or still to be replayed. */
  ghost predicate RepliesProgress(requests: map<nat, Request>, sent: set<(nat, string)>) {
    forall k :: k in requests && requests[k].Queried() ==> ReplyOk(k, requests[k], sent)
  }

  ghost predicate ReplyOk(k: nat, q: Request, sent: set<(nat, string)>)
    requires q.Queried()
  {
    TablesOk(q.snapshot)
    && forall e :: e in Scan(q.snapshot, q.filters) ==> (k, e.id) in sent || (q.Replaying? && e in q.rest)
  }

  /** A finished publication reached every open matching subscription whose query did not already see it. */
  ghost predicate NothingMissed(pubs: map<nat, Publication>, conns: Connections, requests: map<nat, Request>,
    sent: set<(nat, string)>) {
    forall p, conn, name :: (p in pubs && Announced(pubs[p]) && conn in conns && name in conns[conn]) ==>
      Covered(pubs[p].event, conns[conn][name], requests, sent)
  }

  ghost predicate Covered(e: Event, sub: Subscription, requests: map<nat, Request>, sent: set<(nat, string)>) {
    (sub.request in requests && requests[sub.request].Queried() && MatchesAny(e, sub.filters)) ==>
      (sub.request, e.id) in sent
      || (e.id in requests[sub.request].snapshot.events && requests[sub.request].snapshot.events[e.id] == e)
  }

  ghost predicate RelayOk(s: RelayState) {
    && TablesOk(s.tables)
    && PublishedAreStored(s.publications, s.tables.events) && PublicationsWellFormed(s.publications)
    && OpenAreRegistered(s.conns, s.requests) && RepliesProgress(s.requests, s.sent)
    && NothingMissed(s.publications, s.conns, s.requests, s.sent)
  }

  /** A relay that has just started on an existing database. */
  ghost function Start(tables: Tables): (s: RelayState)
    requires TablesOk(tables)
    ensures RelayOk(s) && OnlyMatchesSent(s)
  {
    RelayState(tables, map[], map[], map[], {})
  }

  // ----- Preservation

  lemma SaveKeeps(s: RelayState, k: nat, job: Option<Job>, queueLimit: int, completed: Option<string>)
    requires RelayOk(s) && k in s.publications && s.publications[k].Received?
    ensures RelayOk(Saving(s, k, s.publications[k].event, job, queueLimit, completed))
  {
    hide TablesOk, WellFormed, OpenAreRegistered, RepliesProgress, Covered, SaveTables;
    var e := s.publications[k].event;
    SaveKeepsTablesOk(s.tables, e, job, queueLimit, completed);
    SaveKeepsStored(s.tables, e, job, queueLimit, completed);
  }

  lemma SaveKeepsStored(t: Tables, e: Event, job: Option<Job>, queueLimit: int, completed: Option<string>)
    ensures SaveTables(t, e, job, queueLimit, completed).events == if e.id in t.events then t.events
      else t.events[e.id := e]
  {
    hide PendingJobs, TagRows, Deletions;
  }

  /** Losing subscriptions loses no obligation. */
  lemma FewerSubscriptions(s: RelayState, conns: Connections)
    requires RelayOk(s)
    requires forall conn, name :: conn in conns && name in conns[conn] ==> Open(s.conns, conn, name, conns[conn][name])
    ensures RelayOk(s.(conns := conns))
  {
    hide TablesOk, PublishedAreStored, PublicationsWellFormed, RepliesProgress, Covered, Registered;
  }

  lemma MoreSent(requests: map<nat, Request>, sent: set<(nat, string)>, sent': set<(nat, string)>)
    requires RepliesProgress(requests, sent) && sent <= sent'
    ensures RepliesProgress(requests, sent')
  {
    hide TablesOk;
    forall k | k in requests && requests[k].Queried() ensures ReplyOk(k, requests[k], sent') {
      assert ReplyOk(k, requests[k], sent);
    }
  }

  lemma StillCovered(e: Event, sub: Subscription, requests: map<nat, Request>, sent: set<(nat, string)>,
    sent': set<(nat, string)>)
    requires Covered(e, sub, requests, sent) && sent <= sent'
    ensures Covered(e, sub, requests, sent')
  {
    hide MatchesAny;
  }

  /** A broadcast reaches every subscription that is open and matches. */
  lemma BroadcastCovers(conns: Connections, requests: map<nat, Request>, e: Event, conn: nat, name: string,
    sent: set<(nat, string)>)
    requires conn in conns && name in conns[conn]
    requires forall r :: r in Recipients(conns, e) ==> (r, e.id) in sent
    ensures Covered(e, conns[conn][name], requests, sent)
  {
    hide MatchesAny;
    if MatchesAny(e, conns[conn][name].filters) {
      assert conns[conn][name].request in Recipients(conns, e);
    }
  }

  lemma AnnounceKeeps(s: RelayState, k: nat)
    requires RelayOk(s) && k in s.publications && s.publications[k].Stored?
    ensures RelayOk(Moved(s, Announce(k)))
  {
    hide TablesOk, WellFormed, OpenAreRegistered, RepliesProgress, Covered, Recipients;
    var s', e := Moved(s, Announce(k)), s.publications[k].event;
    MoreSent(s.requests, s.sent, s'.sent);
    forall p, conn, name | p in s'.publications && Announced(s'.publications[p]) && conn in s.conns
      && name in s.conns[conn]
      ensures Covered(s'.publications[p].event, s.conns[conn][name], s.requests, s'.sent)
    {
      if p == k {
        BroadcastCovers(s.conns, s.requests, e, conn, name, s'.sent);
      } else {
        StillCovered(s.publications[p].event, s.conns[conn][name], s.requests, s.sent, s'.sent);
      }
    }
  }

  /** A request may change as long as its open subscription stays registered and its query, if any, stays put. */
  lemma RequestMoves(s: RelayState, k: nat, q: Request, sent: set<(nat, string)>)
    requires RelayOk(s) && s.sent <= sent
    requires k in s.requests ==>
      q.conn == s.requests[k].conn && q.name == s.requests[k].name && q.filters == s.requests[k].filters
    requires k in s.requests && (s.requests[k].Subscribed? || s.requests[k].Queried()) ==> q.Subscribed? || q.Queried()
    requires q.Queried() ==> ReplyOk(k, q, sent)
    requires q.Queried() ==>
      q.snapshot == if k in s.requests && s.requests[k].Queried() then s.requests[k].snapshot else s.tables
    requires k !in s.requests ==> !q.Queried()
    ensures RelayOk(s.(requests := s.requests[k := q], sent := sent))
  {
    hide TablesOk, PublicationsWellFormed, WellFormed, ReplyOk;
    var requests := s.requests[k := q];
    MoreSent(s.requests, s.sent, sent);
    forall p, conn, name | p in s.publications && Announced(s.publications[p]) && conn in s.conns
      && name in s.conns[conn]
      ensures Covered(s.publications[p].event, s.conns[conn][name], requests, sent)
    {
      assert Covered(s.publications[p].event, s.conns[conn][name], s.requests, s.sent);
    }
    assert NothingMissed(s.publications, s.conns, requests, sent);
    assert RepliesProgress(requests, sent);
  }

  lemma RegisterKeeps(s: RelayState, k: nat, tooMany: bool)
    requires RelayOk(s) && k in s.requests && s.requests[k].Asked?
    ensures RelayOk(Registering(s, k, s.requests[k], tooMany))
  {
    hide TablesOk, PublicationsWellFormed, PublishedAreStored, MatchesAny, ReplyOk, InBounds;
    var q, s' := s.requests[k], Registering(s, k, s.requests[k], tooMany);
    forall conn, name | conn in s'.conns && name in s'.conns[conn]
      ensures s'.conns[conn][name].request == k || Open(s.conns, conn, name, s'.conns[conn][name])
      ensures Registered(conn, name, s'.conns[conn][name], s'.requests)
      ensures s'.conns[conn][name].request == k ==> !s'.requests[k].Queried()
    {
    }
    forall p, conn, name | p in s.publications && Announced(s.publications[p]) && conn in s'.conns
      && name in s'.conns[conn]
      ensures Covered(s.publications[p].event, s'.conns[conn][name], s'.requests, s.sent)
    {
      if s'.conns[conn][name].request != k {
        assert Covered(s.publications[p].event, s.conns[conn][name], s.requests, s.sent);
      }
    }
  }

  lemma QueryFailsKeeps(s: RelayState, k: nat)
    requires RelayOk(s) && k in s.requests && s.requests[k].Subscribed?
    ensures RelayOk(Moved(s, QueryFails(k)))
  {
    hide TablesOk, PublicationsWellFormed, PublishedAreStored, MatchesAny, ReplyOk;
    var q, s' := s.requests[k], Moved(s, QueryFails(k));
    forall conn, name | conn in s'.conns && name in s'.conns[conn]
      ensures s'.conns[conn][name].request != k && Open(s.conns, conn, name, s'.conns[conn][name])
    {
      assert Registered(conn, name, s.conns[conn][name], s.requests);
    }
    forall p, conn, name | p in s.publications && Announced(s.publications[p]) && conn in s'.conns
      && name in s'.conns[conn]
      ensures Covered(s.publications[p].event, s'.conns[conn][name], s'.requests, s.sent)
    {
      assert Covered(s.publications[p].event, s.conns[conn][name], s.requests, s.sent);
    }
  }

  lemma QueryKeeps(s: RelayState, k: nat)
    requires RelayOk(s) && k in s.requests && s.requests[k].Subscribed?
    ensures RelayOk(Moved(s, Query(k)))
  {
    hide RelayOk, TablesOk, Scan;
    TablesAreOk(s);
    var q := s.requests[k];
    RequestMoves(s, k, Replaying(q.conn, q.name, q.filters, s.tables, Scan(s.tables, q.filters)), s.sent);
  }

  lemma TablesAreOk(s: RelayState)
    requires RelayOk(s)
    ensures TablesOk(s.tables)
    ensures forall k :: k in s.requests && s.requests[k].Queried() ==> ReplyOk(k, s.requests[k], s.sent)
  {
    hide TablesOk, ReplyOk;
  }

  lemma ReplayKeeps(s: RelayState, k: nat)
    requires RelayOk(s) && k in s.requests && s.requests[k].Replaying?
    ensures RelayOk(Moved(s, Replay(k)))
  {
    hide RelayOk, TablesOk, Scan;
    TablesAreOk(s);
    var q := s.requests[k];
    if q.rest == [] {
      RequestMoves(s, k, Replayed(q.conn, q.name, q.filters, q.snapshot), s.sent);
    } else {
      RequestMoves(s, k, q.(rest := q.rest[1..]), s.sent + {(k, q.rest[0].id)});
    }
  }

  lemma ReceiveKeeps(s: RelayState, k: nat, e: Event)
    requires RelayOk(s) && k !in s.publications && WellFormed(e)
    ensures RelayOk(s.(publications := s.publications[k := Received(e)]))
  {
    hide TablesOk, WellFormed, OpenAreRegistered, RepliesProgress, Covered;
  }

  lemma RecallKeeps(s: RelayState, k: nat, x: string)
    requires RelayOk(s) && k !in s.publications && x in s.tables.events
    ensures RelayOk(s.(publications := s.publications[k := Stored(s.tables.events[x])]))
  {
    hide WellFormed, OpenAreRegistered, RepliesProgress, Covered, TagsIndexed;
  }

  lemma UpdateKeeps(s: RelayState, digest: string, unavailable: bool)
    requires RelayOk(s)
    ensures RelayOk(s.(tables := UpdateJob(s.tables, digest, unavailable)))
  {
    hide TablesOk, WellFormed, OpenAreRegistered, RepliesProgress, NothingMissed;
    SameIndex(s.tables, UpdateJob(s.tables, digest, unavailable));
  }

  /** Every move of every handler keeps the invariant. */
  lemma MoveKeeps(s: RelayState, m: Move)
    requires RelayOk(s)
    ensures RelayOk(Moved(s, m))
  {
    hide RelayOk, TablesOk, WellFormed, Saving, Registering, ReplayNext;
    TablesAreOk(s);
    match m
    case Connect(conn) => FewerSubscriptions(s, s.conns[conn := map[]]);
    case Disconnect(conn) => FewerSubscriptions(s, s.conns - {conn});
    case Close(conn, name) => FewerSubscriptions(s, Drop(s.conns, conn, name));
    case Receive(k, e) => if k !in s.publications && WellFormed(e) { ReceiveKeeps(s, k, e); }
    case Save(k, job, queueLimit, completed) =>
      if k in s.publications && s.publications[k].Received? { SaveKeeps(s, k, job, queueLimit, completed); }
    case Recall(k, x) => if k !in s.publications && x in s.tables.events { RecallKeeps(s, k, x); }
    case Update(digest, unavailable) => UpdateKeeps(s, digest, unavailable);
    case Announce(k) => if k in s.publications && s.publications[k].Stored? { AnnounceKeeps(s, k); }
    case Ask(k, conn, name, filters) => if k !in s.requests { AskKeeps(s, k, Asked(conn, name, filters)); }
    case Register(k, tooMany) => if k in s.requests && s.requests[k].Asked? { RegisterKeeps(s, k, tooMany); }
    case Query(k) => if k in s.requests && s.requests[k].Subscribed? { QueryKeeps(s, k); }
    case QueryFails(k) => if k in s.requests && s.requests[k].Subscribed? { QueryFailsKeeps(s, k); }
    case Replay(k) => if k in s.requests && s.requests[k].Replaying? { ReplayKeeps(s, k); }
  }

  lemma AskKeeps(s: RelayState, k: nat, q: Request)
    requires RelayOk(s) && k !in s.requests && q.Asked?
    ensures RelayOk(s.(requests := s.requests[k := q]))
  {
    hide RelayOk;
    RequestMoves(s, k, q, s.sent);
  }

  // ----- Delivery

  ghost function After(s: RelayState, moves: seq<Move>): (r: RelayState)
    requires RelayOk(s)
    ensures RelayOk(r)
  {
    if moves == [] then s
    else
      var before := After(s, moves[..|moves| - 1]);
      TablesAreOk(before);
      MoveKeeps(before, moves[|moves| - 1]);
      Moved(before, moves[|moves| - 1])
  }

  /** At least once: whatever the interleaving, from a relay just started on any database or from any state in
      order, a new event whose handler has finished has been sent to every subscription that is still open,
      matches it, and has finished its replay, unless the query ran
      after the save and the event was then hidden or had `FilterLimit` matching events listed before it. */
  lemma DeliveredAtLeastOnce(s0: RelayState, moves: seq<Move>, p: nat, conn: nat, name: string)
    requires RelayOk(s0)
    requires var s := After(s0, moves);
      p in s.publications && Announced(s.publications[p]) && conn in s.conns && name in s.conns[conn]
    ensures var s := After(s0, moves);
      var e, sub := s.publications[p].event, s.conns[conn][name];
      sub.request in s.requests
      && (s.requests[sub.request].Replayed? && MatchesAny(e, sub.filters) ==>
            (sub.request, e.id) in s.sent
            || (var seen := s.requests[sub.request].snapshot;
                e.id in seen.events
                && (!Visible(seen, e) || FilterLimit(sub.filters) <= Rank(e, MatchSet(seen, sub.filters)))))
  {
    hide TablesOk, After, Rank;
    var s := After(s0, moves);
    var e, sub := s.publications[p].event, s.conns[conn][name];
    assert Registered(conn, name, sub, s.requests);
    var q := s.requests[sub.request];
    if q.Replayed? && MatchesAny(e, sub.filters) && (sub.request, e.id) !in s.sent {
      assert Covered(e, sub, s.requests, s.sent);
      assert ReplyOk(sub.request, q, s.sent);
      InScanIffRank(q.snapshot, sub.filters, e);
    }
  }

  // ----- From the moves to delivery

  /** The save decides what becomes of a publication: it goes on to be announced exactly when the database can
      hold the event and had none under its id. */
  lemma SaveDecides(s: RelayState, k: nat, job: Option<Job>, queueLimit: int, completed: Option<string>)
    requires RelayOk(s) && k in s.publications && s.publications[k].Received?
    ensures TablesOk(s.tables)
    ensures var e, p := s.publications[k].event, Moved(s, Save(k, job, queueLimit, completed)).publications[k];
      && (p == Stored(e) <==>
            && -0x8000_0000_0000_0000 <= e.createdAt < 0x8000_0000_0000_0000
            && -0x8000_0000_0000_0000 <= e.kind < 0x8000_0000_0000_0000
            && e.id !in s.tables.events)
      && (p != Stored(e) ==> p == Closed(e, false))
  {
    hide TablesOk, SaveTables;
  }

  /** Only its own save and its own announcement move a publication; a closed one stays as it is. */
  lemma PublicationStays(s: RelayState, m: Move, k: nat)
    requires TablesOk(s.tables) && k in s.publications
    ensures k in Moved(s, m).publications
    ensures !(m.Save? && m.k == k) && m != Announce(k) ==> Moved(s, m).publications[k] == s.publications[k]
    ensures s.publications[k].Closed? || (s.publications[k].Stored? && m != Announce(k)) ==>
      Moved(s, m).publications[k] == s.publications[k]
  {
    hide TablesOk, WellFormed, SaveTables, InBounds, Recipients, Scan, EventFits;
  }

  /** What happened to publication k after a number of moves. */
  ghost predicate PublicationIs(s0: RelayState, moves: seq<Move>, n: nat, k: nat, p: Publication)
    requires RelayOk(s0) && n <= |moves|
  {
    k in After(s0, moves[..n]).publications && After(s0, moves[..n]).publications[k] == p
  }

  lemma AfterStep(s0: RelayState, moves: seq<Move>, n: nat)
    requires RelayOk(s0) && n < |moves|
    ensures TablesOk(After(s0, moves[..n]).tables)
    ensures After(s0, moves[..n + 1]) == Moved(After(s0, moves[..n]), moves[n])
  {
    hide RelayOk, Moved, TablesOk;
    TablesAreOk(After(s0, moves[..n]));
    assert moves[..n + 1][..n] == moves[..n];
  }

  /** A publication stays as it is while none of the moves is one of its own that applies to it. */
  lemma {:induction false} PublicationRests(s0: RelayState, moves: seq<Move>, i: nat, j: nat, k: nat, p: Publication)
    requires RelayOk(s0) && i <= j <= |moves| && PublicationIs(s0, moves, i, k, p)
    requires p.Received? ==> forall m :: i <= m < j ==> moves[m] != Announce(k) && !(moves[m].Save? && moves[m].k == k)
    requires p.Stored? ==> forall m :: i <= m < j ==> moves[m] != Announce(k)
    ensures PublicationIs(s0, moves, j, k, p)
    decreases j
  {
    hide RelayOk, Moved, TablesOk, After;
    if i < j {
      PublicationRests(s0, moves, i, j - 1, k, p);
      AfterStep(s0, moves, j - 1);
      PublicationStays(After(s0, moves[..j - 1]), moves[j - 1], k);
    }
  }

  /** An EVENT handler ran: publication k received the event at move r, saved it at move a and announced it at
      move b, its first save and first announcement; the event could be stored and its id was absent. */
  ghost predicate PublishedBy(s0: RelayState, moves: seq<Move>, r: nat, a: nat, b: nat, k: nat, e: Event)
    requires RelayOk(s0)
  {
    && r < a < b < |moves|
    && moves[r] == Receive(k, e) && k !in After(s0, moves[..r]).publications && WellFormed(e)
    && moves[a].Save? && moves[a].k == k && moves[b] == Announce(k)
    && (forall m :: r < m < a ==> moves[m] != Announce(k) && !(moves[m].Save? && moves[m].k == k))
    && (forall m :: a < m < b ==> moves[m] != Announce(k))
    && EventFits(e) && e.id !in After(s0, moves[..a]).tables.events
  }

  lemma PublishedIsSaved(s0: RelayState, moves: seq<Move>, r: nat, a: nat, b: nat, k: nat, e: Event)
    requires RelayOk(s0) && PublishedBy(s0, moves, r, a, b, k, e)
    ensures PublicationIs(s0, moves, b, k, Stored(e))
  {
    hide RelayOk, TablesOk, After, WellFormed, EventFits, SaveTables, Recipients, Scan, InBounds;
    AfterStep(s0, moves, r);
    PublicationRests(s0, moves, r + 1, a, k, Received(e));
    AfterStep(s0, moves, a);
    PublicationRests(s0, moves, a + 1, b, k, Stored(e));
  }

  /** What an announcement does. */
  lemma AnnounceSends(s: RelayState, k: nat, e: Event)
    requires TablesOk(s.tables) && k in s.publications && s.publications[k] == Stored(e)
    ensures var s' := Moved(s, Announce(k));
      k in s'.publications && s'.publications[k] == Closed(e, true)
      && forall conn, name :: conn in s.conns && name in s.conns[conn] && MatchesAny(e, s.conns[conn][name].filters) ==>
           (s.conns[conn][name].request, e.id) in s'.sent
  {
    hide TablesOk, MatchesAny;
    forall conn, name | conn in s.conns && name in s.conns[conn] && MatchesAny(e, s.conns[conn][name].filters)
      ensures s.conns[conn][name].request in Recipients(s.conns, e)
    {
    }
  }

  lemma PublishedIsAnnounced(s0: RelayState, moves: seq<Move>, r: nat, a: nat, b: nat, k: nat, e: Event)
    requires RelayOk(s0) && PublishedBy(s0, moves, r, a, b, k, e)
    ensures PublicationIs(s0, moves, |moves|, k, Closed(e, true))
  {
    hide RelayOk, TablesOk, After, WellFormed, EventFits, Moved, MatchesAny;
    PublishedIsSaved(s0, moves, r, a, b, k, e);
    AfterStep(s0, moves, b);
    AnnounceSends(After(s0, moves[..b]), k, e);
    PublicationRests(s0, moves, b + 1, |moves|, k, Closed(e, true));
  }

  /** At least once, from the moves alone: a client's new event that its handler received, saved and announced
      reached every subscription that is open, matches it and has finished its replay, with the exceptions of
      DeliveredAtLeastOnce. */
  lemma NewEventDelivered(s0: RelayState, moves: seq<Move>, r: nat, a: nat, b: nat, k: nat, e: Event,
    conn: nat, name: string)
    requires RelayOk(s0) && PublishedBy(s0, moves, r, a, b, k, e)
    requires var s := After(s0, moves); conn in s.conns && name in s.conns[conn]
    ensures var s := After(s0, moves);
      var sub := s.conns[conn][name];
      sub.request in s.requests
      && (s.requests[sub.request].Replayed? && MatchesAny(e, sub.filters) ==>
            (sub.request, e.id) in s.sent
            || (var seen := s.requests[sub.request].snapshot;
                e.id in seen.events
                && (!Visible(seen, e) || FilterLimit(sub.filters) <= Rank(e, MatchSet(seen, sub.filters)))))
  {
    hide RelayOk, After, Rank, MatchSet, MatchesAny, Visible, PublishedBy;
    assert moves[..|moves|] == moves;
    PublishedIsAnnounced(s0, moves, r, a, b, k, e);
    DeliveredAtLeastOnce(s0, moves, k, conn, name);
  }

  lemma SentStays(s: RelayState, m: Move)
    requires TablesOk(s.tables)
    ensures s.sent <= Moved(s, m).sent
  {
    hide TablesOk, WellFormed, SaveTables, InBounds, Recipients, Scan, EventFits;
  }

  lemma {:induction false} SentForGood(s0: RelayState, moves: seq<Move>, i: nat, j: nat)
    requires RelayOk(s0) && i <= j <= |moves|
    ensures After(s0, moves[..i]).sent <= After(s0, moves[..j]).sent
    decreases j
  {
    hide RelayOk, Moved, TablesOk, After;
    if i < j {
      SentForGood(s0, moves, i, j - 1);
      AfterStep(s0, moves, j - 1);
      SentStays(After(s0, moves[..j - 1]), moves[j - 1]);
    }
  }

  /** At once: the announcement of a client's new event reaches every matching subscription that is open then,
      whether or not its replay has finished. */
  lemma NewEventBroadcast(s0: RelayState, moves: seq<Move>, r: nat, a: nat, b: nat, k: nat, e: Event,
    conn: nat, name: string)
    requires RelayOk(s0) && PublishedBy(s0, moves, r, a, b, k, e)
    requires var s := After(s0, moves[..b]);
      conn in s.conns && name in s.conns[conn] && MatchesAny(e, s.conns[conn][name].filters)
    ensures (After(s0, moves[..b]).conns[conn][name].request, e.id) in After(s0, moves).sent
  {
    hide RelayOk, TablesOk, After, WellFormed, EventFits, Moved, MatchesAny;
    PublishedIsSaved(s0, moves, r, a, b, k, e);
    AfterStep(s0, moves, b);
    AnnounceSends(After(s0, moves[..b]), k, e);
    SentForGood(s0, moves, b + 1, |moves|);
    assert moves[..|moves|] == moves;
  }

  // ----- From the moves to the replay

  /** A move that changes request k in its present state. */
  predicate Advances(q: Request, m: Move, k: nat) {
    match q
    case Asked(_, _, _) => m.Register? && m.k == k
    case Subscribed(_, _, _) => m == Query(k) || m == QueryFails(k)
    case Replaying(_, _, _, _, _) => m == Replay(k)
    case _ => false
  }

  lemma RequestStays(s: RelayState, m: Move, k: nat)
    requires TablesOk(s.tables) && k in s.requests && !Advances(s.requests[k], m, k)
    ensures k in Moved(s, m).requests && Moved(s, m).requests[k] == s.requests[k]
  {
    hide TablesOk, WellFormed, SaveTables, InBounds, Recipients, Scan, EventFits;
  }

  ghost predicate RequestIs(s0: RelayState, moves: seq<Move>, n: nat, k: nat, q: Request)
    requires RelayOk(s0) && n <= |moves|
  {
    k in After(s0, moves[..n]).requests && After(s0, moves[..n]).requests[k] == q
  }

  lemma {:induction false} RequestRests(s0: RelayState, moves: seq<Move>, i: nat, j: nat, k: nat, q: Request)
    requires RelayOk(s0) && i <= j <= |moves| && RequestIs(s0, moves, i, k, q)
    requires forall m :: i <= m < j ==> !Advances(q, moves[m], k)
    ensures RequestIs(s0, moves, j, k, q)
    decreases j
  {
    hide RelayOk, Moved, TablesOk, After, Advances;
    if i < j {
      RequestRests(s0, moves, i, j - 1, k, q);
      AfterStep(s0, moves, j - 1);
      RequestStays(After(s0, moves[..j - 1]), moves[j - 1], k);
    }
  }

  /** How often request k took a replay step among the moves i to j. */
  function Replays(moves: seq<Move>, i: nat, j: nat, k: nat): nat
    requires i <= j <= |moves|
  {
    if i == j then 0 else Replays(moves, i, j - 1, k) + if moves[j - 1] == Replay(k) then 1 else 0
  }

  /** Where the replay of `answer` stands after n of its steps. */
  function ReplayAt(q: Request, answer: seq<Event>, n: nat): Request
    requires q.Replaying?
  {
    if n <= |answer| then q.(rest := answer[n..]) else Replayed(q.conn, q.name, q.filters, q.snapshot)
  }

  lemma {:induction false} ReplayRuns(s0: RelayState, moves: seq<Move>, i: nat, j: nat, k: nat, q: Request)
    requires RelayOk(s0) && i <= j <= |moves| && q.Replaying? && RequestIs(s0, moves, i, k, q)
    ensures RequestIs(s0, moves, j, k, ReplayAt(q, q.rest, Replays(moves, i, j, k)))
    ensures forall x :: 0 <= x < |q.rest| && x < Replays(moves, i, j, k) ==>
      (k, q.rest[x].id) in After(s0, moves[..j]).sent
    decreases j
  {
    hide RelayOk, TablesOk, After, Moved;
    if i < j {
      ReplayRuns(s0, moves, i, j - 1, k, q);
      AfterStep(s0, moves, j - 1);
      var s, n := After(s0, moves[..j - 1]), Replays(moves, i, j - 1, k);
      SentStays(s, moves[j - 1]);
      if moves[j - 1] == Replay(k) && n <= |q.rest| {
        ReplayStep(s, k);
      } else {
        RequestStays(s, moves[j - 1], k);
      }
    }
  }

  lemma ReplayStep(s: RelayState, k: nat)
    requires TablesOk(s.tables) && k in s.requests && s.requests[k].Replaying?
    ensures var q, s' := s.requests[k], Moved(s, Replay(k));
      k in s'.requests
      && if q.rest == [] then s'.requests[k] == Replayed(q.conn, q.name, q.filters, q.snapshot)
         else s'.requests[k] == q.(rest := q.rest[1..]) && (k, q.rest[0].id) in s'.sent
  {
    hide TablesOk;
  }

  /** A REQ handler ran: request k was made at move r, registered at move a and queried at move b, the first of
      its moves at each stage; its connection was there and its filters were in bounds. */
  ghost predicate ServedBy(s0: RelayState, moves: seq<Move>, r: nat, a: nat, b: nat, k: nat,
    conn: nat, name: string, filters: seq<Filter>)
    requires RelayOk(s0)
  {
    && r < a < b < |moves|
    && moves[r] == Ask(k, conn, name, filters) && k !in After(s0, moves[..r]).requests
    && moves[a] == Register(k, false) && moves[b] == Query(k)
    && (forall m :: r < m < a ==> !(moves[m].Register? && moves[m].k == k))
    && (forall m :: a < m < b ==> moves[m] != Query(k) && moves[m] != QueryFails(k))
    && conn in After(s0, moves[..a]).conns && InBounds(filters)
  }

  /** What a registration within bounds, and then its query, do. */
  lemma RegisterOpens(s: RelayState, k: nat, conn: nat, name: string, filters: seq<Filter>)
    requires TablesOk(s.tables) && k in s.requests && s.requests[k] == Asked(conn, name, filters)
    requires conn in s.conns && InBounds(filters)
    ensures var s' := Moved(s, Register(k, false));
      Open(s'.conns, conn, name, Subscription(filters, k))
      && k in s'.requests && s'.requests[k] == Subscribed(conn, name, filters)
  {
    hide TablesOk, InBounds;
  }

  lemma QueryFinds(s: RelayState, k: nat, conn: nat, name: string, filters: seq<Filter>)
    requires TablesOk(s.tables) && k in s.requests && s.requests[k] == Subscribed(conn, name, filters)
    ensures var s' := Moved(s, Query(k));
      k in s'.requests && s'.requests[k] == Replaying(conn, name, filters, s.tables, Scan(s.tables, filters))
  {
    hide TablesOk, Scan;
  }

  lemma AskAsks(s: RelayState, k: nat, conn: nat, name: string, filters: seq<Filter>)
    requires TablesOk(s.tables) && k !in s.requests
    ensures var s' := Moved(s, Ask(k, conn, name, filters));
      k in s'.requests
      && s'.requests[k] == Asked(conn, name, filters)
  {
    hide TablesOk;
  }

  /** A request within bounds is registered at once, and once it has taken one replay step for each event of the
      answer its query found, and one more, all of the answer was sent and the replay is over. */
  lemma RequestIsServed(s0: RelayState, moves: seq<Move>, r: nat, a: nat, b: nat, k: nat,
    conn: nat, name: string, filters: seq<Filter>)
    requires RelayOk(s0) && ServedBy(s0, moves, r, a, b, k, conn, name, filters)
    ensures Open(After(s0, moves[..a + 1]).conns, conn, name, Subscription(filters, k))
    ensures var found := After(s0, moves[..b]).tables;
      TablesOk(found)
      && (Replays(moves, b + 1, |moves|, k) > |Scan(found, filters)| ==>
            k in After(s0, moves).requests
            && After(s0, moves).requests[k] == Replayed(conn, name, filters, found)
            && forall e :: e in Scan(found, filters) ==> (k, e.id) in After(s0, moves).sent)
  {
    hide RelayOk, TablesOk, After, Scan, InBounds, Moved, Open;
    AfterStep(s0, moves, r);
    AskAsks(After(s0, moves[..r]), k, conn, name, filters);
    RequestRests(s0, moves, r + 1, a, k, Asked(conn, name, filters));
    AfterStep(s0, moves, a);
    RegisterOpens(After(s0, moves[..a]), k, conn, name, filters);
    RequestRests(s0, moves, a + 1, b, k, Subscribed(conn, name, filters));
    AfterStep(s0, moves, b);
    QueryFinds(After(s0, moves[..b]), k, conn, name, filters);
    var found := After(s0, moves[..b]).tables;
    ReplayRuns(s0, moves, b + 1, |moves|, k, Replaying(conn, name, filters, found, Scan(found, filters)));
    assert moves[..|moves|] == moves;
  }

  // ----- The end of a subscription

  /** Request k is past registration and none of the open subscriptions is its own. */
  ghost predicate Ended(s: RelayState, k: nat) {
    && k in s.requests && !s.requests[k].Asked?
    && forall conn, name :: conn in s.conns && name in s.conns[conn] ==> s.conns[conn][name].request != k
  }

  /** A CLOSE of the name, the end of the connection, and another REQ under the name, valid or not. */
  predicate Ends(s: RelayState, m: Move, conn: nat, name: string) {
    || m == Close(conn, name)
    || m == Disconnect(conn)
    || (m.Register? && m.k in s.requests && s.requests[m.k].Asked? && s.requests[m.k].conn == conn
      && s.requests[m.k].name == name)
  }

  lemma EndingEnds(s: RelayState, m: Move, k: nat)
    requires RelayOk(s) && k in s.requests && !s.requests[k].Asked?
    requires Ends(s, m, s.requests[k].conn, s.requests[k].name)
    ensures Ended(Moved(s, m), k)
  {
    hide TablesOk, PublicationsWellFormed, PublishedAreStored, RepliesProgress, NothingMissed, InBounds, MatchesAny,
      Recipients, Scan, Saving, WellFormed;
    var s' := Moved(s, m);
    forall conn, name | conn in s'.conns && name in s'.conns[conn] ensures s'.conns[conn][name].request != k {
      if Open(s.conns, conn, name, s'.conns[conn][name]) {
        assert Registered(conn, name, s.conns[conn][name], s.requests);
      }
    }
  }

  lemma EndedStaysEnded(s: RelayState, m: Move, k: nat)
    requires RelayOk(s) && Ended(s, k)
    ensures Ended(Moved(s, m), k)
  {
    hide RelayOk, TablesOk, InBounds, Saving, Recipients, Scan, WellFormed;
    TablesAreOk(s);
    var s' := Moved(s, m);
    if m.Save? {
      SavingKeepsSubscriptions(s, m);
    }
    forall conn, name | conn in s'.conns && name in s'.conns[conn] ensures s'.conns[conn][name].request != k {
      if !Open(s.conns, conn, name, s'.conns[conn][name]) {
        assert m.Register? && s'.conns[conn][name].request == m.k;
      }
    }
  }

  lemma SavingKeepsSubscriptions(s: RelayState, m: Move)
    requires TablesOk(s.tables) && m.Save?
    ensures Moved(s, m).conns == s.conns && Moved(s, m).requests == s.requests
  {
    hide TablesOk, SaveTables;
  }

  lemma {:induction false} EndedForGood(s: RelayState, moves: seq<Move>, k: nat)
    requires RelayOk(s) && Ended(s, k)
    ensures Ended(After(s, moves), k)
  {
    hide RelayOk, Ended, Moved;
    if moves != [] {
      EndedForGood(s, moves[..|moves| - 1], k);
      EndedStaysEnded(After(s, moves[..|moves| - 1]), moves[|moves| - 1], k);
    }
  }

  /** Once a subscription was closed, disconnected or superseded, no later broadcast reaches it, whatever the
      handlers do and even if its name is used again. */
  lemma NoBroadcastAfterEnd(s: RelayState, m: Move, moves: seq<Move>, k: nat, e: Event)
    requires RelayOk(s) && k in s.requests && !s.requests[k].Asked?
    requires Ends(s, m, s.requests[k].conn, s.requests[k].name)
    ensures RelayOk(Moved(s, m)) && k !in Recipients(After(Moved(s, m), moves).conns, e)
  {
    hide RelayOk, Moved, Ends, MatchesAny;
    TablesAreOk(s);
    MoveKeeps(s, m);
    EndingEnds(s, m, k);
    EndedForGood(Moved(s, m), moves, k);
  }

  // ----- Only what matches

  /** An event in the relay's store under its id, matching a request's filters. */
  ghost predicate Deserves(id: string, k: nat, requests: map<nat, Request>, events: map<string, Event>) {
    k in requests && id in events && MatchesAny(events[id], requests[k].filters)
  }

  /** Everything sent, or about to be replayed, is a stored event that matches the filters it was sent for. */
  ghost predicate OnlyMatchesSent(s: RelayState) {
    && (forall x :: x in s.sent ==> Deserves(x.1, x.0, s.requests, s.tables.events))
    && (forall k, e :: k in s.requests && s.requests[k].Replaying? && e in s.requests[k].rest ==>
      Deserves(e.id, k, s.requests, s.tables.events))
  }

  lemma SaveSendsMatches(s: RelayState, k: nat, job: Option<Job>, queueLimit: int, completed: Option<string>)
    requires OnlyMatchesSent(s) && k in s.publications
    ensures OnlyMatchesSent(Saving(s, k, s.publications[k].event, job, queueLimit, completed))
  {
    hide SaveTables, MatchesAny;
    SaveKeepsStored(s.tables, s.publications[k].event, job, queueLimit, completed);
  }

  lemma AnnounceSendsMatches(s: RelayState, k: nat)
    requires RelayOk(s) && OnlyMatchesSent(s) && k in s.publications && s.publications[k].Stored?
    ensures OnlyMatchesSent(Moved(s, Announce(k)))
  {
    hide TablesOk, MatchesAny, RepliesProgress, NothingMissed, PublicationsWellFormed;
    var e := s.publications[k].event;
    forall r | r in Recipients(s.conns, e) ensures Deserves(e.id, r, s.requests, s.tables.events) {
      var conn, name :| conn in s.conns && name in s.conns[conn] && MatchesAny(e, s.conns[conn][name].filters)
        && r == s.conns[conn][name].request;
      assert Registered(conn, name, s.conns[conn][name], s.requests);
    }
  }

  lemma QuerySendsMatches(s: RelayState, k: nat)
    requires RelayOk(s) && OnlyMatchesSent(s) && k in s.requests && s.requests[k].Subscribed?
    ensures OnlyMatchesSent(Moved(s, Query(k)))
  {
    hide MatchesAny, Rank, RepliesProgress, NothingMissed, PublicationsWellFormed, OpenAreRegistered, TablesOk, Scan,
      MatchSet, IsTop;
    var q, s' := s.requests[k], Moved(s, Query(k));
    forall e | e in Scan(s.tables, q.filters) ensures Deserves(e.id, k, s'.requests, s.tables.events) {
      ScanIsTop(s.tables, q.filters);
      StoredUnderId(s.tables, q.filters, e);
    }
  }

  /** Moves that touch no store and send nothing that was not queued keep the sent set matching. */
  lemma OtherSendsMatches(s: RelayState, m: Move)
    requires RelayOk(s) && OnlyMatchesSent(s) && !m.Save? && !m.Announce? && !m.Query?
    ensures OnlyMatchesSent(Moved(s, m))
  {
    hide RelayOk, MatchesAny, Recipients, Scan, TablesOk, Drop, Add, InBounds, Saving;
    TablesAreOk(s);
  }

  lemma MoveSendsMatches(s: RelayState, m: Move)
    requires RelayOk(s) && OnlyMatchesSent(s)
    ensures OnlyMatchesSent(Moved(s, m))
  {
    hide RelayOk, OnlyMatchesSent, TablesOk, Saving;
    TablesAreOk(s);
    match m
    case Save(k, job, queueLimit, completed) =>
      if k in s.publications { SaveSendsMatches(s, k, job, queueLimit, completed); }
    case Announce(k) => if k in s.publications && s.publications[k].Stored? { AnnounceSendsMatches(s, k); }
    case Query(k) => if k in s.requests && s.requests[k].Subscribed? { QuerySendsMatches(s, k); }
    case _ => OtherSendsMatches(s, m);
  }

  /** No interleaving sends a subscription anything but stored events that match its filters. */
  lemma {:induction false} NothingElseDelivered(s: RelayState, moves: seq<Move>)
    requires RelayOk(s) && OnlyMatchesSent(s)
    ensures OnlyMatchesSent(After(s, moves))
  {
    hide RelayOk, OnlyMatchesSent, Moved;
    if moves != [] {
      NothingElseDelivered(s, moves[..|moves| - 1]);
      MoveSendsMatches(After(s, moves[..|moves| - 1]), moves[|moves| - 1]);
    }
  }
}
