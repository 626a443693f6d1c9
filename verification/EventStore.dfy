/** The store object: transactions that commit whole or roll back, and queries over its indexes. */
module EventStores {
  import opened Text
  import opened Events
  import opened Filters
  import opened Ordering
  import opened Store

  /** A database file before migration; an old file has no tag index table. */
  datatype Disk = Disk(
    events: map<string, Event>, tags: Option<set<TagRow>>, deletions: map<(string, string), Deletion>,
    jobs: map<string, JobRow>, jobOrder: seq<string>)

  ghost function AllTagRows(events: map<string, Event>): set<TagRow> {
    set id, row | id in events && row in TagRows(events[id]) :: row
  }

  ghost predicate DiskOk(disk: Disk) {
    && (forall id :: id in disk.events ==> disk.events[id].id == id && WellFormed(disk.events[id]))
    && (disk.tags.Some? ==> disk.tags.value == AllTagRows(disk.events))
  }

  lemma BackfillIsIndex(t: Tables)
    requires forall id :: id in t.events ==> t.events[id].id == id
    ensures TagsIndexed(t) <==> t.tags == AllTagRows(t.events)
  {
    forall row: TagRow
      ensures row in AllTagRows(t.events) <==> row.eventId in t.events && row in TagRows(t.events[row.eventId])
    {
      if row in AllTagRows(t.events) {
        var id :| id in t.events && row in TagRows(t.events[id]);
        assert row.eventId == id;
      }
    }
  }

  ghost function Marks(e: Event, keys: set<(string, string)>): map<(string, string), Deletion> {
    map key | key in keys :: Deletion(e.id, e.createdAt)
  }

  lemma MarkOne(m: map<(string, string), Deletion>, e: Event, keys: set<(string, string)>, key: (string, string))
    ensures (m + Marks(e, keys))[key := Deletion(e.id, e.createdAt)] == m + Marks(e, keys + {key})
  {
  }

  ghost function NamedUpTo(e: Event, n: nat): set<(string, string)>
    requires n <= |e.tags|
  {
    if n == 0 then {}
    else if NamesDeletion(e, e.tags[n - 1]) then NamedUpTo(e, n - 1) + {(e.tags[n - 1][1], e.pubkey)}
    else NamedUpTo(e, n - 1)
  }

  lemma {:induction false} NamedUpToEnd(e: Event, n: nat)
    requires n <= |e.tags|
    ensures NamedUpTo(e, n) == set tag | tag in e.tags[..n] && NamesDeletion(e, tag) :: (tag[1], e.pubkey)
    ensures n == |e.tags| && e.kind == 5 ==> NamedUpTo(e, n) == DeletionKeys(e)
  {
    if n > 0 {
      NamedUpToEnd(e, n - 1);
      assert e.tags[..n] == e.tags[..n - 1] + [e.tags[n - 1]];
    }
    if n == |e.tags| {
      assert e.tags[..n] == e.tags;
    }
  }

  /** The statement of a save at which the database raises. */
  datatype Fault = NoFault | AtJob | AtEvent | AtTag(n: nat) | AtDeletion(n: nat) | AtCompletion | AtCommit

  datatype SaveResult = Saved(inserted: bool) | Raised

  class EventStore {
    /** Whether the tag index table exists. */
    var indexed: bool
    var events: map<string, Event>
    var tags: set<TagRow>
    var deletions: map<(string, string), Deletion>
    var jobs: map<string, JobRow>
    var jobOrder: seq<string>

    function State(): Tables
      reads this
    {
      Tables(events, tags, deletions, jobs, jobOrder)
    }

    ghost predicate Valid()
      reads this
    {
      indexed && TablesOk(State())
    }

    /** The file as it would be found after a crash. */
    function File(): Disk
      reads this
    {
      Disk(events, if indexed then Some(tags) else None, deletions, jobs, jobOrder)
    }

    constructor (disk: Disk)
      ensures File() == disk
    {
      events := disk.events;
      indexed := disk.tags.Some?;
      tags := if disk.tags.Some? then disk.tags.value else {};
      deletions := disk.deletions;
      jobs, jobOrder := disk.jobs, disk.jobOrder;
    }

    /** _migrate: creates and backfills the tag index of a file that has none, and keeps everything else. If it
        raises anywhere, the file is as it was, so that the next start tries again. */
    method Migrate(fault: Fault) returns (raised: bool)
      requires DiskOk(File())
      modifies this
      ensures raised ==> File() == old(File())
      ensures !raised ==> Valid()
      ensures !raised ==>
        State() == Tables(old(events), AllTagRows(old(events)), old(deletions), old(jobs), old(jobOrder))
      ensures fault.NoFault? ==> !raised
    {
      var before, existed := State(), indexed;
      raised := false;
      if !existed {
        indexed, tags := true, {};
        raised := Backfill(fault);
      }
      if raised || fault.AtCommit? {
        Rollback(before);
        indexed := existed;
        return true;
      }
      BackfillIsIndex(State());
    }

    /** Indexes the rows of the events table, one event after the other. */
    method Backfill(fault: Fault) returns (raised: bool)
      requires tags == {}
      modifies `tags
      ensures !raised ==> tags == AllTagRows(events)
      ensures fault.NoFault? ==> !raised
    {
      var todo := events.Keys;
      raised := false;
      while todo != {} && !raised
        invariant todo <= events.Keys
        invariant !raised ==> tags == set id, row | id in events && id !in todo && row in TagRows(events[id]) :: row
        invariant fault.NoFault? ==> !raised
        decreases todo
      {
        var id :| id in todo;
        raised := IndexTags(events[id], fault);
        todo := todo - {id};
      }
    }

    /** Adds the index rows of one event; a fault leaves some of them behind for the rollback. */
    method IndexTags(e: Event, fault: Fault) returns (raised: bool)
      modifies `tags
      ensures !raised ==> tags == old(tags) + TagRows(e)
      ensures raised ==> fault.AtTag?
    {
      var i := 0;
      while i < |e.tags|
        invariant 0 <= i <= |e.tags|
        invariant tags == old(tags) + set tag | tag in e.tags[..i] && |tag| >= 2 :: TagRow(tag[0], tag[1], e.id)
      {
        if fault == AtTag(i) {
          return true;
        }
        assert e.tags[..i + 1] == e.tags[..i] + [e.tags[i]];
        if |e.tags[i]| >= 2 {
          tags := tags + {TagRow(e.tags[i][0], e.tags[i][1], e.id)};
        }
        i := i + 1;
      }
      assert e.tags[..i] == e.tags;
      raised := false;
    }

    /** Records the targets of a deletion request, whether or not they have arrived. */
    method RecordDeletions(e: Event, fault: Fault) returns (raised: bool)
      requires e.kind == 5
      modifies `deletions
      ensures !raised ==> deletions == old(deletions) + Deletions(e)
      ensures raised ==> fault.AtDeletion?
    {
      var i := 0;
      while i < |e.tags|
        invariant 0 <= i <= |e.tags|
        invariant deletions == old(deletions) + Marks(e, NamedUpTo(e, i))
      {
        if fault == AtDeletion(i) {
          return true;
        }
        if NamesDeletion(e, e.tags[i]) {
          MarkOne(old(deletions), e, NamedUpTo(e, i), (e.tags[i][1], e.pubkey));
          deletions := deletions[(e.tags[i][1], e.pubkey) := Deletion(e.id, e.createdAt)];
        }
        i := i + 1;
      }
      NamedUpToEnd(e, i);
      raised := false;
    }

    method Rollback(before: Tables)
      modifies `events, `tags, `deletions, `jobs, `jobOrder
      ensures State() == before
    {
      events, tags, deletions := before.events, before.tags, before.deletions;
      jobs, jobOrder := before.jobs, before.jobOrder;
    }

    /** One save: a committed save leaves exactly SaveTables; one that raises anywhere, by a database
        fault or by an integer SQLite cannot hold, leaves every table as it was. */
    method Save(e: Event, job: Option<Job>, queueLimit: int, completed: Option<string>, fault: Fault)
      returns (r: SaveResult)
      requires Valid() && WellFormed(e)
      modifies this
      ensures Valid()
      ensures r.Raised? ==> State() == old(State())
      ensures r.Saved? ==> State() == SaveTables(old(State()), e, job, queueLimit, completed)
      ensures r.Saved? ==> r.inserted == (e.id !in old(events))
      ensures r.Saved? ==> EventFits(e)
      ensures fault.NoFault? && EventFits(e) ==> r.Saved?
    {
      var before := State();
      SaveKeepsTablesOk(before, e, job, queueLimit, completed);
      r := Transaction(e, job, queueLimit, completed, fault);
      if r.Raised? {
        Rollback(before);
      }
    }

    /** The statements of a save, in order, up to the first that raises. */
    method Transaction(e: Event, job: Option<Job>, queueLimit: int, completed: Option<string>, fault: Fault)
      returns (r: SaveResult)
      modifies `events, `tags, `deletions, `jobs, `jobOrder
      ensures r.Saved? ==> State() == SaveTables(old(State()), e, job, queueLimit, completed)
      ensures r.Saved? ==> r.inserted == (e.id !in old(events)) && EventFits(e)
      ensures fault.NoFault? && EventFits(e) ==> r.Saved?
    {
      if job.Some? && fault.AtJob? {
        return Raised;
      }
      Enqueue(job, queueLimit);
      if fault.AtEvent? || !EventFits(e) {
        return Raised;
      }
      var inserted, raised := Insert(e, fault);
      if raised {
        return Raised;
      }
      if e.kind == 5 {
        raised := RecordDeletions(e, fault);
      }
      if raised || (completed.Some? && fault.AtCompletion?) {
        return Raised;
      }
      assert e.kind != 5 ==> deletions + Deletions(e) == deletions;
      Complete(e, completed);
      r := if fault.AtCommit? then Raised else Saved(inserted);
    }

    /** INSERT OR IGNORE INTO witness_jobs, under the queue limit. */
    method Enqueue(job: Option<Job>, queueLimit: int)
      modifies `jobs, `jobOrder
      ensures State() == EnqueueJob(old(State()), job, queueLimit)
    {
      if job.Some? {
        var state := if |PendingJobs(jobs)| < queueLimit then JobPending else JobUnavailable;
        if job.value.digest !in jobs {
          jobs := jobs[job.value.digest := JobRow(job.value, state, None, false)];
          jobOrder := jobOrder + [job.value.digest];
        }
      }
    }

    /** INSERT OR IGNORE INTO events, and the index rows of an event that was not there. */
    method Insert(e: Event, fault: Fault) returns (inserted: bool, raised: bool)
      modifies `events, `tags
      ensures inserted == (e.id !in old(events))
      ensures !raised ==> State() == InsertEvent(old(State()), e)
      ensures raised ==> fault.AtTag?
    {
      inserted, raised := e.id !in events, false;
      if inserted {
        events := events[e.id := e];
        raised := IndexTags(e, fault);
      }
    }

    /** UPDATE witness_jobs to issued, where the job is still pending. */
    method Complete(receipt: Event, completed: Option<string>)
      modifies `jobs
      ensures State() == CompleteJob(old(State()), receipt, completed)
    {
      if completed.Some? && completed.value in jobs && jobs[completed.value].state.JobPending? {
        jobs := jobs[completed.value :=
          jobs[completed.value].(state := JobIssued, receipt := Some(receipt), broadcast := false)];
      }
    }

    /** witness_update: an unavailable mark on a pending row, or a broadcast mark on an issued one. */
    method WitnessUpdate(digest: string, unavailable: bool)
      requires Valid()
      modifies `jobs
      ensures Valid() && State() == UpdateJob(old(State()), digest, unavailable)
    {
      if digest in jobs {
        var row := jobs[digest];
        if unavailable && row.state.JobPending? {
          jobs := jobs[digest := row.(state := JobUnavailable)];
        } else if !unavailable && row.state.JobIssued? {
          jobs := jobs[digest := row.(broadcast := true)];
        }
      }
    }

    /** witness_rows without a digest: the oldest rows that need work, at most 32 of them. */
    method WitnessRows() returns (rows: seq<string>)
      ensures rows == Batch(State())
      ensures |rows| == Min(|Outstanding(State(), jobOrder)|, 32) && rows <= Outstanding(State(), jobOrder)
    {
      rows := [];
      var i := 0;
      ghost var all := Outstanding(State(), jobOrder);
      while i < |jobOrder| && |rows| < BATCH
        invariant 0 <= i <= |jobOrder| && |rows| <= BATCH
        invariant all == rows + Outstanding(State(), jobOrder[i..])
      {
        assert jobOrder[i..][1..] == jobOrder[i + 1..];
        if NeedsWork(State(), jobOrder[i]) {
          rows := rows + [jobOrder[i]];
        }
        i := i + 1;
      }
    }

    /** The compiled, indexed, per-filter-limited query returns what a plain scan would. */
    method Query(filters: seq<Filter>) returns (r: Option<seq<Event>>)
      requires Valid()
      ensures r.Some? <==> InBounds(filters)
      ensures r.Some? ==> r.value == Scan(State(), filters)
    {
      var ok := ValidateFilterBounds(filters);
      if !ok {
        return None;
      }
      var limit := FilterLimit(filters);
      var matches: map<string, Event> := map[];
      ghost var t := State();
      assert MatchSet(t, filters[..0]) == matches.Values;
      StoredIdsAreDistinct(t, matches.Values);
      hide DistinctIds, Top, Elements, TablesOk, MatchesAny, Selected, InBounds, SelectedRows;
      for i := 0 to |filters|
        invariant Keyed(matches) && matches.Values <= events.Values
        invariant DistinctIds(matches.Values) && DistinctIds(MatchSet(t, filters[..i]))
        invariant Top(matches.Values, limit) == Top(MatchSet(t, filters[..i]), limit)
      {
        var rows := Select(filters[i], limit);
        MergeStep(t, matches.Values, filters[..i], filters[i], limit);
        assert filters[..i + 1] == filters[..i] + [filters[i]];
        matches := Merge(matches, rows);
      }
      assert filters[..|filters|] == filters;
      var listing := Listing(matches.Values, limit);
      r := Some(listing);
    }

    /** SELECT of one filter's clause, newest first, cut at the limit. */
    method Select(f: Filter, limit: nat) returns (rows: seq<Event>)
      requires Valid()
      ensures DistinctIds(SelectedRows(State(), f))
      ensures rows == Top(SelectedRows(State(), f), limit)
    {
      ghost var t := State();
      var selected := set e | e in events.Values && Selected(State(), f, e);
      StoredIdsAreDistinct(t, selected);
      rows := Listing(selected, limit);
    }

    /** Files a filter's rows by id among those of the filters before it. */
    method Merge(matches: map<string, Event>, rows: seq<Event>) returns (merged: map<string, Event>)
      requires Valid() && Keyed(matches)
      requires matches.Values <= events.Values && Elements(rows) <= events.Values
      ensures Keyed(merged) && merged.Values == matches.Values + Elements(rows)
    {
      merged := matches;
      for i := 0 to |rows|
        invariant Keyed(merged) && merged.Values == matches.Values + Elements(rows[..i])
      {
        assert rows[..i + 1] == rows[..i] + [rows[i]];
        assert rows[i] in Elements(rows);
        assert merged.Values <= events.Values;
        FileRow(State(), merged, rows[i]);
        merged := merged[rows[i].id := rows[i]];
      }
      assert rows[..|rows|] == rows;
    }
  }

  ghost predicate Keyed(matches: map<string, Event>) {
    forall id :: id in matches ==> matches[id].id == id
  }

  /** Filing a stored event never displaces another one. */
  lemma FileRow(t: Tables, matches: map<string, Event>, row: Event)
    requires TablesOk(t) && Keyed(matches)
    requires matches.Values <= t.events.Values && row in t.events.Values
    ensures Keyed(matches[row.id := row]) && matches[row.id := row].Values == matches.Values + {row}
  {
    var filed := matches[row.id := row];
    forall e | e in matches.Values ensures e in filed.Values {
      StoredIdsAreDistinct(t, {e, row});
      assert filed[e.id] == e;
    }
    assert filed[row.id] == row;
  }
}
