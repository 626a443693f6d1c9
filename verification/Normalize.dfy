/** From the JSON filters of a REQ to the relay's filters: ill-typed and unknown entries are dropped. */
module Normalize {
  import opened Text
  import opened Filters

  datatype Json = Str(s: string) | Int(n: int) | List(items: seq<Json>) | OtherJson

  /** One element of a REQ's payload after the subscription id: an object's entries, or not an object. */
  datatype RawFilter = Object(entries: seq<(string, Json)>) | NotAnObject

  const EMPTY_FILTER := Filter(None, None, None, None, None, None, [])

  predicate IsStringList(value: Json) {
    value.List? && forall item :: item in value.items ==> item.Str?
  }

  predicate IsIntList(value: Json) {
    value.List? && forall item :: item in value.items ==> item.Int?
  }

  function Strings(value: Json): seq<string>
    requires IsStringList(value)
  {
    seq(|value.items|, i requires 0 <= i < |value.items| => assert value.items[i] in value.items; value.items[i].s)
  }

  function Ints(value: Json): seq<int>
    requires IsIntList(value)
  {
    seq(|value.items|, i requires 0 <= i < |value.items| => assert value.items[i] in value.items; value.items[i].n)
  }

  /** What one entry adds to a filter. */
  function CleanEntry(f: Filter, key: string, value: Json): Filter {
    if key == "ids" && IsStringList(value) then f.(ids := Some(Strings(value)))
    else if key == "authors" && IsStringList(value) then f.(authors := Some(Strings(value)))
    else if key == "kinds" && IsIntList(value) then f.(kinds := Some(Ints(value)))
    else if key == "since" && value.Int? then f.(since := Some(value.n))
    else if key == "until" && value.Int? then f.(until := Some(value.n))
    else if key == "limit" && value.Int? then f.(limit := Some(value.n))
    else if |key| == 2 && key[0] == '#' && IsStringList(value) then f.(tags := f.tags + [(key[1..], Strings(value))])
    else f
  }

  function Clean(entries: seq<(string, Json)>): Filter {
    if entries == [] then EMPTY_FILTER
    else
      var last := entries[|entries| - 1];
      CleanEntry(Clean(entries[..|entries| - 1]), last.0, last.1)
  }

  function CleanAll(raw: seq<RawFilter>): seq<Filter> {
    if raw == [] then []
    else
      var last := raw[|raw| - 1];
      CleanAll(raw[..|raw| - 1]) + (if last.Object? then [Clean(last.entries)] else [])
  }

  /** normalize_filters: None when it raises. */
  method NormalizeFilters(raw: seq<RawFilter>) returns (r: Option<seq<Filter>>)
    ensures r.Some? <==> |raw| <= 16 && InBounds(CleanAll(raw))
    ensures r.Some? ==> r.value == CleanAll(raw)
  {
    if |raw| > MAX_FILTERS {
      return None;
    }
    var normalized: seq<Filter> := [];
    for i := 0 to |raw|
      invariant normalized == CleanAll(raw[..i])
    {
      assert raw[..i + 1][..i] == raw[..i];
      if raw[i].Object? {
        var clean := CleanObject(raw[i].entries);
        normalized := normalized + [clean];
      }
    }
    assert raw[..|raw|] == raw;
    var ok := ValidateFilterBounds(normalized);
    r := if ok then Some(normalized) else None;
  }

  method CleanObject(entries: seq<(string, Json)>) returns (clean: Filter)
    ensures clean == Clean(entries)
  {
    clean := EMPTY_FILTER;
    for i := 0 to |entries|
      invariant clean == Clean(entries[..i])
    {
      assert entries[..i + 1][..i] == entries[..i];
      clean := CleanEntry(clean, entries[i].0, entries[i].1);
    }
    assert entries[..|entries|] == entries;
  }

  // ----- Round trip

  function StrList(values: seq<string>): Json {
    List(seq(|values|, i requires 0 <= i < |values| => Str(values[i])))
  }

  function IntList(values: seq<int>): Json {
    List(seq(|values|, i requires 0 <= i < |values| => Int(values[i])))
  }

  function TagEntries(tags: seq<(string, seq<string>)>): seq<(string, Json)> {
    if tags == [] then []
    else
      var last := tags[|tags| - 1];
      TagEntries(tags[..|tags| - 1]) + [("#" + last.0, StrList(last.1))]
  }

  function EntryOf(key: string, value: Option<Json>): seq<(string, Json)> {
    if value.Some? then [(key, value.value)] else []
  }

  function MapOption<A, B>(value: Option<A>, f: A -> B): Option<B> {
    if value.Some? then Some(f(value.value)) else None
  }

  /** A filter as a client would write it. */
  function Encode(f: Filter): seq<(string, Json)> {
    EntryOf("ids", MapOption(f.ids, StrList)) + EntryOf("authors", MapOption(f.authors, StrList))
    + EntryOf("kinds", MapOption(f.kinds, IntList))
    + EntryOf("since", MapOption(f.since, n => Int(n))) + EntryOf("until", MapOption(f.until, n => Int(n)))
    + EntryOf("limit", MapOption(f.limit, n => Int(n)))
    + TagEntries(f.tags)
  }

  lemma ListsRoundTrip(strings: seq<string>, ints: seq<int>)
    ensures IsStringList(StrList(strings)) && Strings(StrList(strings)) == strings
    ensures IsIntList(IntList(ints)) && Ints(IntList(ints)) == ints
  {
  }

  lemma CleanLast(entries: seq<(string, Json)>, key: string, value: Option<Json>)
    ensures Clean(entries + EntryOf(key, value))
      == if value.Some? then CleanEntry(Clean(entries), key, value.value) else Clean(entries)
  {
    if value.Some? {
      assert (entries + [(key, value.value)])[..|entries|] == entries;
    } else {
      assert entries + [] == entries;
    }
  }

  lemma CleanTag(entries: seq<(string, Json)>, name: string, values: seq<string>)
    requires |name| == 1
    ensures Clean(entries + [("#" + name, StrList(values))])
      == Clean(entries).(tags := Clean(entries).tags + [(name, values)])
  {
    ListsRoundTrip(values, []);
    var all := entries + [("#" + name, StrList(values))];
    assert all[..|all| - 1] == entries;
    assert ("#" + name)[1..] == name;
  }

  lemma {:induction false} CleanTags(entries: seq<(string, Json)>, tags: seq<(string, seq<string>)>)
    requires forall t :: t in tags ==> |t.0| == 1
    ensures Clean(entries + TagEntries(tags)) == Clean(entries).(tags := Clean(entries).tags + tags)
  {
    hide Clean;
    if tags == [] {
      assert entries + TagEntries(tags) == entries;
    } else {
      var init, last := tags[..|tags| - 1], tags[|tags| - 1];
      CleanTags(entries, init);
      CleanTag(entries + TagEntries(init), last.0, last.1);
      assert entries + TagEntries(tags) == (entries + TagEntries(init)) + [("#" + last.0, StrList(last.1))];
      assert Clean(entries).tags + init + [last] == Clean(entries).tags + tags by {
        assert tags == init + [last];
      }
    }
  }

  /** Every filter with one-letter tag names survives being written out and normalized again. */
  lemma FilterRoundTrip(f: Filter)
    requires forall t :: t in f.tags ==> |t.0| == 1
    ensures Clean(Encode(f)) == f
  {
    hide Clean, TagEntries, EntryOf;
    ListsRoundTrip(if f.ids.Some? then f.ids.value else [], if f.kinds.Some? then f.kinds.value else []);
    ListsRoundTrip(if f.authors.Some? then f.authors.value else [], []);
    var e1 := EntryOf("ids", MapOption(f.ids, StrList));
    var e2 := e1 + EntryOf("authors", MapOption(f.authors, StrList));
    var e3 := e2 + EntryOf("kinds", MapOption(f.kinds, IntList));
    var e4 := e3 + EntryOf("since", MapOption(f.since, n => Int(n)));
    var e5 := e4 + EntryOf("until", MapOption(f.until, n => Int(n)));
    var e6 := e5 + EntryOf("limit", MapOption(f.limit, n => Int(n)));
    assert Clean([]) == EMPTY_FILTER by {
      CleanNothing();
    }
    assert [] + e1 == e1;
    CleanLast([], "ids", MapOption(f.ids, StrList));
    CleanLast(e1, "authors", MapOption(f.authors, StrList));
    CleanLast(e2, "kinds", MapOption(f.kinds, IntList));
    CleanLast(e3, "since", MapOption(f.since, n => Int(n)));
    CleanLast(e4, "until", MapOption(f.until, n => Int(n)));
    CleanLast(e5, "limit", MapOption(f.limit, n => Int(n)));
    CleanTags(e6, f.tags);
  }

  lemma CleanNothing()
    ensures Clean([]) == EMPTY_FILTER
  {
  }
}
