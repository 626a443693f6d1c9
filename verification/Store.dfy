/** The event store: its tables, the transactions that change them, and the compiled query. */
module Store {
  import opened Text
  import opened Events
  import opened Filters
  import opened Ordering

  datatype TagRow = TagRow(name: string, value: string, eventId: string)

  datatype Deletion = Deletion(deletionId: string, deletedAt: int)

  datatype JobState = JobPending | JobIssued | JobUnavailable

  /** What the relay observed when it accepted a subject. */
  datatype Job = Job(
    subject: Event, digest: string, version: int, observedAt: int, uncertainty: Option<int>,
    authorizationId: string, policyDigest: string, witnessKey: string)

  datatype JobRow = JobRow(inputs: Job, state: JobState, receipt: Option<Event>, broadcast: bool)

  /** The contents of all tables; `deletions` is keyed by (target id, deleting author), and
      `jobOrder` lists the job keys by row id. */
  datatype Tables = Tables(
    events: map<string, Event>, tags: set<TagRow>, deletions: map<(string, string), Deletion>,
    jobs: map<string, JobRow>, jobOrder: seq<string>)

  // ----- Tables derived from events

  function TagRows(e: Event): set<TagRow> {
    set tag | tag in e.tags && |tag| >= 2 :: TagRow(tag[0], tag[1], e.id)
  }

  predicate NamesDeletion(e: Event, tag: seq<string>) {
    |tag| >= 2 && tag[0] == "e" && IsLowerHex(tag[1], 64) && tag[1] != e.id
  }

  /** The (target, author) pairs a kind 5 event deletes: its well-formed "e" tags, except itself. */
  function DeletionKeys(e: Event): set<(string, string)> {
    if e.kind == 5 then set tag | tag in e.tags && NamesDeletion(e, tag) :: (tag[1], e.pubkey) else {}
  }

  predicate Visible(t: Tables, e: Event) {
    (e.id, e.pubkey) !in t.deletions
  }

  predicate WellFormed(e: Event) {
    IsLowerHex(e.id, 64) && IsLowerHex(e.pubkey, 64)
  }

  ghost predicate TagsIndexed(t: Tables) {
    forall row: TagRow :: row in t.tags <==> row.eventId in t.events && row in TagRows(t.events[row.eventId])
  }

  /** Rows are stored under their own ids, and the tag index holds exactly the tags of stored events. */
  ghost predicate TablesOk(t: Tables) {
    && (forall id :: id in t.events ==> t.events[id].id == id && WellFormed(t.events[id]))
    && TagsIndexed(t)
  }

  // ----- Transactions

  predicate EventFits(e: Event) {
    Fits64(e.createdAt) && Fits64(e.kind)
  }

  function PendingJobs(jobs: map<string, JobRow>): set<string> {
    set d | d in jobs && jobs[d].state.JobPending?
  }

  /** INSERT OR IGNORE of a job; a full queue records it as unavailable. */
  function EnqueueJob(t: Tables, job: Option<Job>, queueLimit: int): Tables {
    if job.None? || job.value.digest in t.jobs then t
    else
      var state := if |PendingJobs(t.jobs)| < queueLimit then JobPending else JobUnavailable;
      t.(jobs := t.jobs[job.value.digest := JobRow(job.value, state, None, false)],
         jobOrder := t.jobOrder + [job.value.digest])
  }

  function InsertEvent(t: Tables, e: Event): Tables {
    if e.id in t.events then t
    else t.(events := t.events[e.id := e], tags := t.tags + TagRows(e))
  }

  function Deletions(e: Event): map<(string, string), Deletion> {
    map key | key in DeletionKeys(e) :: Deletion(e.id, e.createdAt)
  }

  function CompleteJob(t: Tables, receipt: Event, completed: Option<string>): Tables {
    if completed.Some? && completed.value in t.jobs && t.jobs[completed.value].state.JobPending? then
      t.(jobs := t.jobs[completed.value :=
        t.jobs[completed.value].(state := JobIssued, receipt := Some(receipt), broadcast := false)])
    else t
  }

  /** The tables after a save that commits. */
  function SaveTables(t: Tables, e: Event, job: Option<Job>, queueLimit: int, completed: Option<string>): Tables {
    var inserted := InsertEvent(EnqueueJob(t, job, queueLimit), e);
    CompleteJob(inserted.(deletions := inserted.deletions + Deletions(e)), e, completed)
  }

  function UpdateJob(t: Tables, digest: string, unavailable: bool): Tables {
    if digest !in t.jobs then t
    else
      var row := t.jobs[digest];
      if unavailable && row.state.JobPending? then t.(jobs := t.jobs[digest := row.(state := JobUnavailable)])
      else if !unavailable && row.state.JobIssued? then t.(jobs := t.jobs[digest := row.(broadcast := true)])
      else t
  }

  lemma InsertKeepsTablesOk(t: Tables, e: Event)
    requires TablesOk(t) && WellFormed(e)
    ensures TablesOk(InsertEvent(t, e))
  {
    var t' := InsertEvent(t, e);
    if e.id !in t.events {
      forall row: TagRow ensures row in t'.tags
        <==> row.eventId in t'.events && row in TagRows(t'.events[row.eventId]) {
        assert row in TagRows(e) ==> row.eventId == e.id;
      }
    }
  }

  /** After every committed save the tag index is exact again. */
  lemma SaveKeepsTablesOk(t: Tables, e: Event, job: Option<Job>, queueLimit: int, completed: Option<string>)
    requires TablesOk(t) && WellFormed(e)
    ensures TablesOk(SaveTables(t, e, job, queueLimit, completed))
  {
    var queued := EnqueueJob(t, job, queueLimit);
    assert queued.events == t.events && queued.tags == t.tags;
    SameIndex(t, queued);
    InsertKeepsTablesOk(queued, e);
    var t' := SaveTables(t, e, job, queueLimit, completed);
    var inserted := InsertEvent(queued, e);
    assert t'.events == inserted.events && t'.tags == inserted.tags;
    SameIndex(inserted, t');
  }

  lemma SameIndex(t: Tables, t': Tables)
    requires TablesOk(t) && t'.events == t.events && t'.tags == t.tags
    ensures TablesOk(t')
  {
  }

  // ----- Outstanding work

  const BATCH := 32

  predicate NeedsWork(t: Tables, d: string) {
    d in t.jobs && (t.jobs[d].state.JobPending? || (t.jobs[d].state.JobIssued? && !t.jobs[d].broadcast))
  }

  /** The listed jobs that are pending, or issued and not yet broadcast, in the order listed. */
  function Outstanding(t: Tables, order: seq<string>): seq<string> {
    if order == [] then []
    else (if NeedsWork(t, order[0]) then [order[0]] else []) + Outstanding(t, order[1..])
  }

  /** The rows the worker is handed: the oldest that need work, at most BATCH of them. */
  function Batch(t: Tables): seq<string> {
    var all := Outstanding(t, t.jobOrder);
    all[..Min(|all|, BATCH)]
  }

  lemma {:induction false} OutstandingIsComplete(t: Tables, order: seq<string>)
    ensures forall d :: d in Outstanding(t, order) <==> d in order && NeedsWork(t, d)
  {
    if order != [] {
      OutstandingIsComplete(t, order[1..]);
      assert order == [order[0]] + order[1..];
    }
  }

  // ----- Queries

  predicate ColumnMatches(prefixes: seq<string>, value: string) {
    exists p :: p in prefixes && (if |p| == 64 then value == p else InPrefixRange(p, value))
  }

  predicate TagClause(t: Tables, id: string, name: string, values: seq<string>) {
    exists row :: row in t.tags && row.eventId == id && row.name == name && row.value in values
  }

  /** The WHERE clause compiled from one filter. */
  predicate Selected(t: Tables, f: Filter, e: Event) {
    && Visible(t, e)
    && (f.ids.Some? ==> ColumnMatches(f.ids.value, e.id))
    && (f.authors.Some? ==> ColumnMatches(f.authors.value, e.pubkey))
    && (f.kinds.Some? ==> e.kind in f.kinds.value)
    && (f.since.Some? ==> e.createdAt >= f.since.value)
    && (f.until.Some? ==> e.createdAt <= f.until.value)
    && forall tag :: tag in f.tags ==> TagClause(t, e.id, tag.0, tag.1)
  }

  function SelectedRows(t: Tables, f: Filter): set<Event> {
    set e | e in t.events.Values && Selected(t, f, e)
  }

  /** Stored, visible events that satisfy some filter, found by scanning every event. */
  ghost function MatchSet(t: Tables, filters: seq<Filter>): set<Event> {
    set e | e in t.events.Values && Visible(t, e) && MatchesAny(e, filters)
  }

  lemma StoredIdsAreDistinct(t: Tables, part: set<Event>)
    requires TablesOk(t) && part <= t.events.Values
    ensures DistinctIds(part)
  {
    forall a, b | a in part && b in part && a.id == b.id ensures a == b {
      var i :| i in t.events && t.events[i] == a;
      var j :| j in t.events && t.events[j] == b;
    }
  }

  /** The reference answer: scan, sort, and keep the first `FilterLimit`. */
  ghost function Scan(t: Tables, filters: seq<Filter>): (r: seq<Event>)
    requires TablesOk(t)
  {
    StoredIdsAreDistinct(t, MatchSet(t, filters));
    Top(MatchSet(t, filters), FilterLimit(filters))
  }

  /** A scan lists the first `FilterLimit` matching events and nothing else. */
  lemma ScanIsTop(t: Tables, filters: seq<Filter>)
    requires TablesOk(t)
    ensures IsTop(Scan(t, filters), MatchSet(t, filters), FilterLimit(filters))
    ensures forall i :: 0 <= i < |Scan(t, filters)| ==> Scan(t, filters)[i] in MatchSet(t, filters)
  {
    hide MatchSet, TablesOk;
    StoredIdsAreDistinct(t, MatchSet(t, filters)) by {
      MatchSetIsStored(t, filters);
    }
    TopIsTop(MatchSet(t, filters), FilterLimit(filters));
    forall i | 0 <= i < |Scan(t, filters)| ensures Scan(t, filters)[i] in MatchSet(t, filters) {
      assert Scan(t, filters)[i] in Elements(Scan(t, filters));
    }
  }

  lemma MatchSetIsStored(t: Tables, filters: seq<Filter>)
    ensures MatchSet(t, filters) <= t.events.Values
  {
  }

  /** A stored event is in a scan's answer exactly when it is visible, matches, and is within the limit. */
  lemma InScanIffRank(t: Tables, filters: seq<Filter>, e: Event)
    requires TablesOk(t) && e.id in t.events && t.events[e.id] == e
    ensures e in Scan(t, filters)
      <==> Visible(t, e) && MatchesAny(e, filters) && Rank(e, MatchSet(t, filters)) < FilterLimit(filters)
  {
    hide Rank, MatchesAny;
    StoredIdsAreDistinct(t, MatchSet(t, filters));
    if e in MatchSet(t, filters) {
      TopIffRank(MatchSet(t, filters), FilterLimit(filters), e);
    } else {
      TopIsTop(MatchSet(t, filters), FilterLimit(filters));
    }
  }

  lemma StoredUnderId(t: Tables, filters: seq<Filter>, e: Event)
    requires TablesOk(t) && e in MatchSet(t, filters)
    ensures e.id in t.events && t.events[e.id] == e && MatchesAny(e, filters)
  {
  }

  /** On 64-digit hexadecimal columns the compiled test is the prefix test, for every prefix. */
  lemma ColumnIsPrefix(prefixes: seq<string>, value: string)
    requires IsLowerHex(value, 64)
    ensures ColumnMatches(prefixes, value) <==> MatchesPrefixes(value, prefixes)
  {
    forall p | p in prefixes ensures (if |p| == 64 then value == p else InPrefixRange(p, value)) <==> p <= value {
      PrefixRange(p, value);
      if |p| < 64 {
        assert value[|p|] in "0123456789abcdef";
        NotLast(value[|p|]);
      }
    }
  }

  lemma NotLast(c: char)
    requires c in "0123456789abcdef"
    ensures c != LAST_CODE_POINT
  {
    assert (c as int) < 128;
  }

  /** The tag index answers as the event's own tags do. */
  lemma TagClauseIsHasTag(t: Tables, e: Event, name: string, values: seq<string>)
    requires TagsIndexed(t) && e.id in t.events && t.events[e.id] == e
    ensures TagClause(t, e.id, name, values) <==> HasTag(e, name, values)
  {
    if HasTag(e, name, values) {
      var tag :| tag in e.tags && |tag| >= 2 && tag[0] == name && tag[1] in values;
      var row := TagRow(tag[0], tag[1], e.id);
      assert row in TagRows(e);
      assert row in t.tags;
    }
    if TagClause(t, e.id, name, values) {
      var row :| row in t.tags && row.eventId == e.id && row.name == name && row.value in values;
      assert row in TagRows(e);
    }
  }

  /** The compiled clause of a filter selects exactly the visible events the filter matches. */
  lemma SelectedIsMatches(t: Tables, f: Filter, e: Event)
    requires TablesOk(t) && e.id in t.events && t.events[e.id] == e
    ensures Selected(t, f, e) <==> Visible(t, e) && Matches(e, f)
  {
    if f.ids.Some? {
      ColumnIsPrefix(f.ids.value, e.id);
    }
    if f.authors.Some? {
      ColumnIsPrefix(f.authors.value, e.pubkey);
    }
    forall tag | tag in f.tags ensures TagClause(t, e.id, tag.0, tag.1) <==> HasTag(e, tag.0, tag.1) {
      TagClauseIsHasTag(t, e, tag.0, tag.1);
    }
  }

  lemma MatchSetExtends(t: Tables, filters: seq<Filter>, f: Filter)
    requires TablesOk(t)
    ensures MatchSet(t, filters + [f]) == MatchSet(t, filters) + SelectedRows(t, f)
  {
    forall e | e in t.events.Values
      ensures Selected(t, f, e) <==> Visible(t, e) && Matches(e, f)
      ensures MatchesAny(e, filters + [f]) <==> MatchesAny(e, filters) || Matches(e, f)
    {
      var id :| id in t.events && t.events[id] == e;
      SelectedIsMatches(t, f, e);
      if Matches(e, f) {
        assert f in filters + [f];
      }
      if g :| g in filters && Matches(e, g) {
        assert g in filters + [f];
      }
    }
  }

  /** Limiting every filter's rows before the merge and again after it loses nothing. */
  lemma MergeStep(t: Tables, merged: set<Event>, filters: seq<Filter>, f: Filter, k: nat)
    requires TablesOk(t) && merged <= t.events.Values
    requires DistinctIds(merged) && DistinctIds(MatchSet(t, filters)) && DistinctIds(SelectedRows(t, f))
    requires Top(merged, k) == Top(MatchSet(t, filters), k)
    ensures Elements(Top(SelectedRows(t, f), k)) <= t.events.Values
    ensures DistinctIds(MatchSet(t, filters + [f]))
    ensures DistinctIds(merged + Elements(Top(SelectedRows(t, f), k)))
    ensures Top(merged + Elements(Top(SelectedRows(t, f), k)), k) == Top(MatchSet(t, filters + [f]), k)
  {
    hide DistinctIds, Top, Elements, TablesOk;
    var rows := SelectedRows(t, f);
    StoredIdsAreDistinct(t, merged + rows);
    StoredIdsAreDistinct(t, MatchSet(t, filters) + rows);
    MergePages(merged, MatchSet(t, filters), rows, k);
    MatchSetExtends(t, filters, f);
  }
}
