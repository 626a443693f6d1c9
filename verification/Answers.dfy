/** Which events a query answers, told from what arrived: no tombstones, no ranks, no reference scan. */
module Answers {
  import opened Text
  import opened Events
  import opened Filters
  import opened Ordering
  import opened Store
  import opened Convergence
  import opened Lifecycle
  import opened Witnessing
  import opened Runs
  import opened Worker

  /** The request is of kind 5, by the author of the event, and tags it, unless it is that event itself. */
  predicate Deletes(request: Event, e: Event) {
    request.kind == 5 && request.pubkey == e.pubkey && request.id != e.id
    && exists tag :: tag in request.tags && ["e", e.id] <= tag
  }

  /** The event is neither marked at the start nor deleted by anything that arrived since. */
  predicate Undeleted(marked: set<(string, string)>, arrived: set<Event>, e: Event) {
    (e.id, e.pubkey) !in marked && forall x :: x in arrived ==> !Deletes(x, e)
  }

  /** The stored, matching, undeleted events listed before `e`: the newer ones, and among those as old the ones
      with a greater id. */
  ghost function Ahead(t: Tables, marked: set<(string, string)>, arrived: set<Event>, filters: seq<Filter>, e: Event)
    : set<Event>
  {
    set x | x in t.events.Values && MatchesAny(x, filters) && Undeleted(marked, arrived, x)
            && (x.createdAt > e.createdAt || (x.createdAt == e.createdAt && Less(e.id, x.id)))
  }

  lemma UndeletedIsVisible(t: Tables, marked: set<(string, string)>, arrived: set<Event>, e: Event)
    requires t.deletions.Keys == marked + AllDeletionKeys(arrived) && WellFormed(e)
    ensures Visible(t, e) <==> Undeleted(marked, arrived, e)
  {
    hide DeletionKeys, WellFormed, Deletes;
    forall x | x in arrived ensures (e.id, e.pubkey) in DeletionKeys(x) <==> Deletes(x, e) {
      DeletesByKey(x, e);
    }
  }

  lemma DeletesByKey(x: Event, e: Event)
    requires WellFormed(e)
    ensures (e.id, e.pubkey) in DeletionKeys(x) <==> Deletes(x, e)
  {
    hide DeletionKeys, WellFormed;
    NamesIffTagged(e, x);
  }

  lemma AheadIsRanked(t: Tables, marked: set<(string, string)>, arrived: set<Event>, filters: seq<Filter>, e: Event)
    requires TablesOk(t) && t.deletions.Keys == marked + AllDeletionKeys(arrived)
    ensures Ahead(t, marked, arrived, filters, e) == set x | x in MatchSet(t, filters) && Before(x, e)
  {
    hide Undeleted, MatchesAny, AllDeletionKeys, Visible;
    forall x | x in t.events.Values ensures Visible(t, x) <==> Undeleted(marked, arrived, x) {
      StoredIsWellFormed(t, x);
      UndeletedIsVisible(t, marked, arrived, x);
    }
  }

  lemma StoredIsWellFormed(t: Tables, x: Event)
    requires TablesOk(t) && x in t.events.Values
    ensures WellFormed(x) && x.id in t.events && t.events[x.id] == x
  {
    hide WellFormed, TagsIndexed;
  }

  /** An answer lists an event exactly when it is stored, matches, is undeleted, and has fewer such events ahead
      of it than the limit. */
  lemma AnsweredIff(t: Tables, marked: set<(string, string)>, arrived: set<Event>, filters: seq<Filter>, e: Event)
    requires TablesOk(t) && t.deletions.Keys == marked + AllDeletionKeys(arrived)
    ensures e in Scan(t, filters)
      <==> e.id in t.events && t.events[e.id] == e && MatchesAny(e, filters) && Undeleted(marked, arrived, e)
           && |Ahead(t, marked, arrived, filters, e)| < FilterLimit(filters)
  {
    hide TablesOk, Undeleted, MatchesAny, AllDeletionKeys, Visible, Ahead, WellFormed;
    ScanIsTop(t, filters);
    AheadIsRanked(t, marked, arrived, filters, e);
    if e.id in t.events && t.events[e.id] == e {
      InScanIffRank(t, filters, e);
      StoredIsWellFormed(t, e);
      UndeletedIsVisible(t, marked, arrived, e);
    } else if e in Scan(t, filters) {
      StoredUnderId(t, filters, e);
    }
  }

  /** After any batch of saves: an author's deletion requests, and nobody else's, take an event out of the
      answers. */
  lemma BatchAnswers(t0: Tables, es: seq<Event>, filters: seq<Filter>, e: Event)
    requires TablesOk(t0) && forall x :: x in es ==> WellFormed(x)
    ensures TablesOk(SaveAll(t0, es))
    ensures var t := SaveAll(t0, es);
      e in Scan(t, filters)
      <==> e.id in t.events && t.events[e.id] == e && MatchesAny(e, filters)
           && Undeleted(t0.deletions.Keys, Arrived(es), e)
           && |Ahead(t, t0.deletions.Keys, Arrived(es), filters, e)| < FilterLimit(filters)
  {
    hide TablesOk, Undeleted, MatchesAny, AllDeletionKeys, Ahead, WellFormed, SaveAll, Scan;
    SaveAllHolds(t0, es);
    AnsweredIff(SaveAll(t0, es), t0.deletions.Keys, Arrived(es), filters, e);
  }

  /** The same at every moment of every run, with storage failures, issuance and restarts. */
  lemma RunAnswers(c: Crypto, id: Identity, w: World, ops: seq<Op>, n: nat, filters: seq<Filter>, e: Event)
    requires TablesOk(w.tables) && n <= |ops|
    requires forall op :: op in ops && op.Submit? ==> WellFormed(op.event)
    ensures TablesOk(At(c, id, w, ops, n).tables)
    ensures var t := At(c, id, w, ops, n).tables;
      e in Scan(t, filters)
      <==> e.id in t.events && t.events[e.id] == e && MatchesAny(e, filters)
           && Undeleted(w.tables.deletions.Keys, Committed(ops, n), e)
           && |Ahead(t, w.tables.deletions.Keys, Committed(ops, n), filters, e)| < FilterLimit(filters)
  {
    hide TablesOk, Undeleted, MatchesAny, AllDeletionKeys, Ahead, WellFormed, At, Scan;
    TablesThroughout(c, id, w, ops, n, n, e);
    TombstonesThroughout(c, id, w, ops, n);
    AnsweredIff(At(c, id, w, ops, n).tables, w.tables.deletions.Keys, Committed(ops, n), filters, e);
  }

  /** Answers list the newest first, and among events as old the greater id first. */
  lemma AnswersNewestFirst(t: Tables, filters: seq<Filter>, i: nat, j: nat)
    requires TablesOk(t) && i < j < |Scan(t, filters)|
    ensures var a, b := Scan(t, filters)[i], Scan(t, filters)[j];
      a.createdAt > b.createdAt || (a.createdAt == b.createdAt && Less(b.id, a.id))
  {
    hide TablesOk, MatchSet, Scan;
    ScanIsTop(t, filters);
  }

  // ----- An event is found by what it says

  /** A filter that describes an event: prefixes of its id and author, its kind and time, and some of its tags. */
  function Describes(e: Event, n: nat, m: nat, tags: seq<(string, seq<string>)>): Filter
    requires n <= |e.id| && m <= |e.pubkey|
  {
    Filter(Some([e.id[..n]]), Some([e.pubkey[..m]]), Some([e.kind]), Some(e.createdAt), Some(e.createdAt), None, tags)
  }

  /** An event is found by every filter that describes it, and such a filter finds only events of the same kind
      and second that share the prefixes and the tags. */
  lemma DescriptionMatches(e: Event, n: nat, m: nat, tags: seq<(string, seq<string>)>, x: Event)
    requires n <= |e.id| && m <= |e.pubkey|
    requires forall t :: t in tags ==> exists v :: v in t.1 && [t.0, v] in e.tags
    ensures Matches(e, Describes(e, n, m, tags))
    ensures Matches(x, Describes(e, n, m, tags)) <==>
      e.id[..n] <= x.id && e.pubkey[..m] <= x.pubkey && x.kind == e.kind && x.createdAt == e.createdAt
      && forall t :: t in tags ==> exists tag :: tag in x.tags && |tag| >= 2 && tag[0] == t.0 && tag[1] in t.1
  {
    var f := Describes(e, n, m, tags);
    assert e.id[..n] in f.ids.value && e.id[..n] <= e.id;
    assert e.pubkey[..m] in f.authors.value && e.pubkey[..m] <= e.pubkey;
    forall t | t in tags ensures HasTag(e, t.0, t.1) {
      var v :| v in t.1 && [t.0, v] in e.tags;
      assert [t.0, v][0] == t.0 && [t.0, v][1] == v;
    }
  }
}
