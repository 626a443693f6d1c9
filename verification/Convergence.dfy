/** Stores that receive the same events converge, whatever the order and however often. */
module Convergence {
  import opened Text
  import opened Events
  import opened Filters
  import opened Ordering
  import opened Store

  /** Saving a sequence of events in turn; an event whose integers SQLite cannot hold is refused. */
  function SaveAll(t: Tables, es: seq<Event>): Tables {
    if es == [] then t
    else
      var before := SaveAll(t, es[..|es| - 1]);
      var e := es[|es| - 1];
      if EventFits(e) then SaveTables(before, e, None, 0, None) else before
  }

  function Arrived(es: seq<Event>): set<Event> {
    set e | e in es && EventFits(e)
  }

  function Ids(events: set<Event>): set<string> {
    set e | e in events :: e.id
  }

  function AllDeletionKeys(events: set<Event>): set<(string, string)> {
    set e, key | e in events && key in DeletionKeys(e) :: key
  }

  /** What a store holds after a batch, in terms of the batch as a set. */
  ghost predicate Holds(t: Tables, t0: Tables, arrived: set<Event>) {
    && t.events.Keys == t0.events.Keys + Ids(arrived)
    && (forall id :: id in t.events ==> t.events[id] in t0.events.Values || t.events[id] in arrived)
    && t.deletions.Keys == t0.deletions.Keys + AllDeletionKeys(arrived)
  }

  lemma OneMore(arrived: set<Event>, e: Event)
    ensures Ids(arrived + {e}) == Ids(arrived) + {e.id}
    ensures AllDeletionKeys(arrived + {e}) == AllDeletionKeys(arrived) + DeletionKeys(e)
  {
    hide DeletionKeys;
  }

  lemma PlainSave(t: Tables, e: Event)
    ensures SaveTables(t, e, None, 0, None).events == if e.id in t.events then t.events else t.events[e.id := e]
    ensures SaveTables(t, e, None, 0, None).deletions.Keys == t.deletions.Keys + DeletionKeys(e)
  {
    hide DeletionKeys;
  }

  lemma SaveHolds(t: Tables, t0: Tables, arrived: set<Event>, e: Event)
    requires Holds(t, t0, arrived)
    ensures Holds(SaveTables(t, e, None, 0, None), t0, arrived + {e})
  {
    hide SaveTables, Ids, AllDeletionKeys, DeletionKeys;
    PlainSave(t, e);
    OneMore(arrived, e);
  }

  lemma {:induction false} SaveAllHolds(t0: Tables, es: seq<Event>)
    requires TablesOk(t0) && forall e :: e in es ==> WellFormed(e)
    ensures TablesOk(SaveAll(t0, es)) && Holds(SaveAll(t0, es), t0, Arrived(es))
  {
    if es == [] {
      assert t0.events.Keys == t0.events.Keys + Ids(Arrived(es));
    } else {
      var init, e := es[..|es| - 1], es[|es| - 1];
      SaveAllHolds(t0, init);
      assert es == init + [e];
      if EventFits(e) {
        var before := SaveAll(t0, init);
        SaveHolds(before, t0, Arrived(init), e);
        SaveKeepsTablesOk(before, e, None, 0, None);
        assert Arrived(es) == Arrived(init) + {e};
      } else {
        assert Arrived(es) == Arrived(init);
      }
    }
  }

  /** Two stores hold the same events, up to which signature of an event came first, and the same tombstones. */
  ghost predicate Alike(t: Tables, u: Tables) {
    && t.events.Keys == u.events.Keys
    && (forall id :: id in t.events ==> t.events[id].Unsealed() == u.events[id].Unsealed())
    && t.deletions.Keys == u.deletions.Keys
  }

  ghost predicate SameAnswer(a: seq<Event>, b: seq<Event>) {
    |a| == |b| && forall i :: 0 <= i < |a| ==> a[i].Unsealed() == b[i].Unsealed()
  }

  lemma UnsealedMatches(a: Event, b: Event, filters: seq<Filter>)
    requires a.Unsealed() == b.Unsealed()
    ensures MatchesAny(a, filters) <==> MatchesAny(b, filters)
  {
    forall f | f in filters ensures Matches(a, f) <==> Matches(b, f) {
    }
  }

  /** The event the other store keeps under the same id. */
  lemma Counterpart(t: Tables, u: Tables, filters: seq<Filter>, e: Event)
    requires TablesOk(t) && TablesOk(u) && Alike(t, u) && e in MatchSet(t, filters)
    ensures e.id in u.events && u.events[e.id].Unsealed() == e.Unsealed()
    ensures u.events[e.id] in MatchSet(u, filters)
  {
    var id :| id in t.events && t.events[id] == e;
    assert id == e.id;
    UnsealedMatches(e, u.events[id], filters);
  }

  /** The same listing, with the events another store keeps under the same ids. */
  lemma Translation(t: Tables, u: Tables, filters: seq<Filter>, a: seq<Event>) returns (b: seq<Event>)
    requires TablesOk(t) && TablesOk(u) && Alike(t, u)
    requires forall i :: 0 <= i < |a| ==> a[i] in MatchSet(t, filters)
    ensures |b| == |a|
    ensures forall i :: 0 <= i < |a| ==> b[i].Unsealed() == a[i].Unsealed() && b[i] in MatchSet(u, filters)
  {
    hide MatchSet, Alike, TablesOk;
    forall i | 0 <= i < |a|
      ensures a[i].id in u.events && u.events[a[i].id].Unsealed() == a[i].Unsealed()
        && u.events[a[i].id] in MatchSet(u, filters)
    {
      Counterpart(t, u, filters, a[i]);
    }
    b := seq(|a|, i requires 0 <= i < |a| => u.events[a[i].id]);
  }

  lemma AlikeStoresAnswerAlike(t: Tables, u: Tables, filters: seq<Filter>)
    requires TablesOk(t) && TablesOk(u) && Alike(t, u)
    ensures SameAnswer(Scan(t, filters), Scan(u, filters))
  {
    hide MatchSet, Alike, TablesOk, IsTop, Scan;
    ScanIsTop(t, filters);
    ScanIsTop(u, filters);
    var b := Translation(t, u, filters, Scan(t, filters));
    TranslationIsTop(t, u, filters, Scan(t, filters), b);
    TopIsUnique(b, Scan(u, filters), MatchSet(u, filters), FilterLimit(filters));
  }

  lemma TranslationIsTop(t: Tables, u: Tables, filters: seq<Filter>, a: seq<Event>, b: seq<Event>)
    requires TablesOk(t) && TablesOk(u) && Alike(t, u)
    requires IsTop(a, MatchSet(t, filters), FilterLimit(filters)) && |b| == |a|
    requires forall i :: 0 <= i < |a| ==> b[i].Unsealed() == a[i].Unsealed() && b[i] in MatchSet(u, filters)
    ensures IsTop(b, MatchSet(u, filters), FilterLimit(filters))
  {
    hide TablesOk, MatchSet, Alike;
    forall i, j | 0 <= i < j < |b| ensures Before(b[i], b[j]) {
      assert Before(a[i], a[j]);
      SameRank(a[i], b[i], a[j], b[j]);
    }
    forall x | x in MatchSet(u, filters) && x !in b
      ensures |b| == FilterLimit(filters) && forall i :: 0 <= i < |b| ==> Before(b[i], x)
    {
      AlikeSymmetric(t, u);
      Counterpart(u, t, filters, x);
      var y := t.events[x.id];
      if y in a {
        var i :| 0 <= i < |a| && a[i] == y;
        SameStored(u, filters, b[i], x);
      }
      forall i | 0 <= i < |b| ensures Before(b[i], x) {
        SameRank(a[i], b[i], y, x);
      }
    }
  }

  lemma SameStored(u: Tables, filters: seq<Filter>, x: Event, y: Event)
    requires TablesOk(u) && x in MatchSet(u, filters) && y in MatchSet(u, filters)
    requires x.Unsealed() == y.Unsealed()
    ensures x == y
  {
    StoredIdsAreDistinct(u, {x, y});
  }

  lemma AlikeSymmetric(t: Tables, u: Tables)
    requires Alike(t, u)
    ensures Alike(u, t)
  {
  }

  lemma SameRank(a: Event, a': Event, b: Event, b': Event)
    requires a.Unsealed() == a'.Unsealed() && b.Unsealed() == b'.Unsealed()
    ensures Before(a, b) <==> Before(a', b')
  {
  }

  /** Any two orders of the same events, repeats included, give stores that answer every query alike. */
  lemma OrderDoesNotMatter(t0: Tables, es: seq<Event>, fs: seq<Event>, filters: seq<Filter>)
    requires TablesOk(t0) && (forall e :: e in es <==> e in fs)
    requires forall e :: e in es ==> WellFormed(e)
    requires IdDetermines(t0.events.Values + Arrived(es))
    ensures TablesOk(SaveAll(t0, es)) && TablesOk(SaveAll(t0, fs))
    ensures Alike(SaveAll(t0, es), SaveAll(t0, fs))
    ensures SameAnswer(Scan(SaveAll(t0, es), filters), Scan(SaveAll(t0, fs), filters))
  {
    SaveAllHolds(t0, es);
    SaveAllHolds(t0, fs);
    assert Arrived(es) == Arrived(fs);
    var t, u := SaveAll(t0, es), SaveAll(t0, fs);
    forall id | id in t.events ensures t.events[id].Unsealed() == u.events[id].Unsealed() {
      assert t.events[id] in t0.events.Values + Arrived(es) && u.events[id] in t0.events.Values + Arrived(es);
    }
    AlikeStoresAnswerAlike(t, u, filters);
  }

  // ----- The tables a batch leaves

  function Get<K, V>(m: map<K, V>, k: K): Option<V> {
    if k in m then Some(m[k]) else None
  }

  /** The first event of a batch under an id that the database can hold. */
  function FirstCopy(es: seq<Event>, id: string): (r: Option<Event>)
    ensures r.Some? ==> r.value in Arrived(es) && r.value.id == id
    ensures r.None? ==> forall e :: e in Arrived(es) ==> e.id != id
  {
    if es == [] then None
    else
      var before, e := FirstCopy(es[..|es| - 1], id), es[|es| - 1];
      assert forall x :: x in es <==> x in es[..|es| - 1] || x == e;
      if before.None? && EventFits(e) && e.id == id then Some(e) else before
  }

  /** The last event of a batch, among those the database can hold, that names a target and its author. */
  function LastNaming(es: seq<Event>, key: (string, string)): (r: Option<Event>)
    ensures r.Some? ==> r.value in Arrived(es) && key in DeletionKeys(r.value)
    ensures r.None? ==> forall e :: e in Arrived(es) ==> key !in DeletionKeys(e)
  {
    if es == [] then None
    else
      var e := es[|es| - 1];
      assert forall x :: x in es <==> x in es[..|es| - 1] || x == e;
      if EventFits(e) && key in DeletionKeys(e) then Some(e) else LastNaming(es[..|es| - 1], key)
  }

  function MarkOf(request: Event): Deletion {
    Deletion(request.id, request.createdAt)
  }

  /** After any batch, an id holds what it held before or else the first event of the batch with that id, and a
      tombstone records the last request of the batch that names it, or else what it recorded before. */
  lemma {:induction false} BatchTables(t0: Tables, es: seq<Event>)
    ensures forall id :: Get(SaveAll(t0, es).events, id) == if id in t0.events then Some(t0.events[id])
      else FirstCopy(es, id)
    ensures forall key ::
      Get(SaveAll(t0, es).deletions, key)
      == match LastNaming(es, key) case Some(request) => Some(MarkOf(request)) case None => Get(t0.deletions, key)
    ensures SaveAll(t0, es).jobs == t0.jobs && SaveAll(t0, es).jobOrder == t0.jobOrder
  {
    hide DeletionKeys, EventFits, SaveTables, Arrived;
    if es != [] {
      BatchTables(t0, es[..|es| - 1]);
      PlainSaveTables(SaveAll(t0, es[..|es| - 1]), es[|es| - 1]);
    }
  }

  lemma PlainSaveTables(t: Tables, e: Event)
    ensures SaveTables(t, e, None, 0, None).events == if e.id in t.events then t.events else t.events[e.id := e]
    ensures forall key ::
      Get(SaveTables(t, e, None, 0, None).deletions, key)
      == if key in DeletionKeys(e) then Some(MarkOf(e)) else Get(t.deletions, key)
    ensures SaveTables(t, e, None, 0, None).jobs == t.jobs && SaveTables(t, e, None, 0, None).jobOrder == t.jobOrder
  {
    hide DeletionKeys;
  }

  lemma SameGets<K, V>(m: map<K, V>, n: map<K, V>)
    requires forall k :: Get(m, k) == Get(n, k)
    ensures m == n
  {
    forall k ensures k in m <==> k in n {
      assert Get(m, k) == Get(n, k);
    }
    forall k | k in m ensures m[k] == n[k] {
      assert Get(m, k) == Get(n, k);
    }
  }

  lemma SameEventsSameIndex(t: Tables, u: Tables)
    requires TablesOk(t) && TablesOk(u) && t.events == u.events
    ensures t.tags == u.tags
  {
    forall row ensures row in t.tags <==> row in u.tags {
    }
  }

  /** Two orders of the same events leave equal tables if and only if they agree on which copy of each new event
      comes first and on which request for each target comes last. */
  lemma EqualTablesIff(t0: Tables, es: seq<Event>, fs: seq<Event>)
    requires TablesOk(t0) && (forall e :: e in es <==> e in fs) && (forall e :: e in es ==> WellFormed(e))
    ensures SaveAll(t0, es) == SaveAll(t0, fs)
      <==> (forall id :: id !in t0.events ==> FirstCopy(es, id) == FirstCopy(fs, id))
           && (forall key :: SameMark(es, fs, key))
  {
    hide SaveAll, FirstCopy, LastNaming, WellFormed, TablesOk, DeletionKeys, EventFits, SameMark;
    var t, u := SaveAll(t0, es), SaveAll(t0, fs);
    SaveAllHolds(t0, es);
    SaveAllHolds(t0, fs);
    EqualEventsIff(t0, es, fs);
    EqualDeletionsIff(t0, es, fs);
    BatchTables(t0, es);
    BatchTables(t0, fs);
    if t.events == u.events {
      SameEventsSameIndex(t, u);
    }
    assert t == u <==> t.events == u.events && t.tags == u.tags && t.deletions == u.deletions;
  }

  lemma EqualEventsIff(t0: Tables, es: seq<Event>, fs: seq<Event>)
    ensures SaveAll(t0, es).events == SaveAll(t0, fs).events
      <==> (forall id :: id !in t0.events ==> FirstCopy(es, id) == FirstCopy(fs, id))
  {
    hide SaveAll, FirstCopy, LastNaming;
    var t, u := SaveAll(t0, es), SaveAll(t0, fs);
    BatchTables(t0, es);
    BatchTables(t0, fs);
    if t.events == u.events {
      forall id | id !in t0.events ensures FirstCopy(es, id) == FirstCopy(fs, id) {
        assert Get(t.events, id) == Get(u.events, id);
      }
    }
    if forall id :: id !in t0.events ==> FirstCopy(es, id) == FirstCopy(fs, id) {
      forall id ensures Get(t.events, id) == Get(u.events, id) {
        assert id !in t0.events ==> FirstCopy(es, id) == FirstCopy(fs, id);
      }
      SameGets(t.events, u.events);
    }
  }

  lemma EqualDeletionsIff(t0: Tables, es: seq<Event>, fs: seq<Event>)
    requires forall e :: e in es <==> e in fs
    ensures SaveAll(t0, es).deletions == SaveAll(t0, fs).deletions
      <==> (forall key :: SameMark(es, fs, key))
  {
    hide SaveAll, FirstCopy, LastNaming, DeletionKeys, EventFits;
    var t, u := SaveAll(t0, es), SaveAll(t0, fs);
    BatchTables(t0, es);
    BatchTables(t0, fs);
    assert Arrived(es) == Arrived(fs);
    if t.deletions == u.deletions {
      forall key ensures SameMark(es, fs, key) {
        assert LastNaming(es, key).Some? <==> LastNaming(fs, key).Some?;
        assert Get(t.deletions, key) == Get(u.deletions, key);
      }
    }
    if forall key :: SameMark(es, fs, key) {
      forall key ensures Get(t.deletions, key) == Get(u.deletions, key) {
        assert SameMark(es, fs, key);
      }
      SameGets(t.deletions, u.deletions);
    }
  }

  /** The last requests of both batches for a target, if any, record the same tombstone. */
  predicate SameMark(es: seq<Event>, fs: seq<Event>, key: (string, string)) {
    var a, b := LastNaming(es, key), LastNaming(fs, key);
    (a.Some? <==> b.Some?) && (a.Some? ==> MarkOf(a.value) == MarkOf(b.value))
  }

  /** Two copies of a new event with different signatures, in either order, leave different tables. */
  lemma TwoSignaturesDiffer(t0: Tables, e: Event, other: string)
    requires EventFits(e) && e.id !in t0.events && other != e.sig
    ensures var copy := e.(sig := other);
      Get(SaveAll(t0, [e, copy]).events, e.id) == Some(e) && Get(SaveAll(t0, [copy, e]).events, e.id) == Some(copy)
      && e != copy && SaveAll(t0, [e, copy]) != SaveAll(t0, [copy, e])
  {
    hide SaveAll, DeletionKeys;
    var copy := e.(sig := other);
    BatchTables(t0, [e, copy]);
    BatchTables(t0, [copy, e]);
    FirstOfTwo(e, copy);
    FirstOfTwo(copy, e);
  }

  lemma FirstOfTwo(a: Event, b: Event)
    requires EventFits(a) && a.id == b.id
    ensures FirstCopy([a, b], a.id) == Some(a)
  {
    hide EventFits;
    assert [a, b][..1] == [a] && [a][..0] == [];
    assert FirstCopy([a], a.id) == Some(a);
  }

  /** Two deletion requests for one target, in either order, leave different tombstones. */
  lemma TwoRequestsDiffer(t0: Tables, a: Event, b: Event, key: (string, string))
    requires EventFits(a) && EventFits(b) && key in DeletionKeys(a) && key in DeletionKeys(b) && a.id != b.id
    ensures Get(SaveAll(t0, [a, b]).deletions, key) == Some(MarkOf(b))
    ensures Get(SaveAll(t0, [b, a]).deletions, key) == Some(MarkOf(a)) && MarkOf(a) != MarkOf(b)
  {
    hide SaveAll, DeletionKeys, EventFits;
    BatchTables(t0, [a, b]);
    BatchTables(t0, [b, a]);
  }

  /** A tombstone is never lifted, not even by deleting the deletion request. */
  lemma {:induction false} HiddenStaysHidden(t: Tables, es: seq<Event>, e: Event)
    requires !Visible(t, e)
    ensures !Visible(SaveAll(t, es), e)
  {
    if es != [] {
      HiddenStaysHidden(t, es[..|es| - 1], e);
    }
  }

  /** A deletion request names an event when it is of kind 5, by the event's author, and carries an "e" tag of
      any length that starts with the event's id, unless that event is the request itself. */
  lemma NamesIffTagged(e: Event, request: Event)
    requires WellFormed(e)
    ensures (e.id, e.pubkey) in DeletionKeys(request)
      <==> request.kind == 5 && request.pubkey == e.pubkey && request.id != e.id
           && exists tag :: tag in request.tags && ["e", e.id] <= tag
  {
    hide IsLowerHex;
    if tag :| tag in request.tags && ["e", e.id] <= tag {
      assert tag[0] == "e" && tag[1] == e.id;
    }
    if tag :| tag in request.tags && NamesDeletion(request, tag) && tag[1] == e.id {
      assert ["e", e.id] <= tag;
    }
  }

  /** No copy of the event, under whatever signature, is in the answer. */
  predicate Absent(e: Event, answer: seq<Event>) {
    forall x :: x in answer ==> (x.id, x.pubkey) != (e.id, e.pubkey)
  }

  /** An author's deletion request hides its target whether it comes before or after it, and for good. */
  lemma DeletionHidesInEitherOrder(t0: Tables, e: Event, request: Event, later: seq<Event>, filters: seq<Filter>)
    requires TablesOk(t0) && WellFormed(e) && WellFormed(request)
    requires forall x :: x in later ==> WellFormed(x)
    requires EventFits(request) && (e.id, e.pubkey) in DeletionKeys(request)
    ensures TablesOk(SaveAll(t0, [e, request] + later)) && Absent(e, Scan(SaveAll(t0, [e, request] + later), filters))
    ensures TablesOk(SaveAll(t0, [request, e] + later)) && Absent(e, Scan(SaveAll(t0, [request, e] + later), filters))
  {
    HidesAmong(t0, e, request, [e, request] + later, filters);
    HidesAmong(t0, e, request, [request, e] + later, filters);
  }

  lemma HidesAmong(t0: Tables, e: Event, request: Event, es: seq<Event>, filters: seq<Filter>)
    requires TablesOk(t0) && WellFormed(e) && (forall x :: x in es ==> WellFormed(x)) && request in es
    requires EventFits(request) && (e.id, e.pubkey) in DeletionKeys(request)
    ensures TablesOk(SaveAll(t0, es)) && Absent(e, Scan(SaveAll(t0, es), filters))
  {
    SaveAllHolds(t0, es);
    var t := SaveAll(t0, es);
    assert request in Arrived(es);
    ScanIsTop(t, filters);
  }
}
