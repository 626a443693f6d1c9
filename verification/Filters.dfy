/** NIP-01 filters: their bounds and their plain meaning, event by event. */
module Filters {
  import opened Text
  import opened Events

  /** A normalized filter; `tags` holds the "#x" entries as (x, values). */
  datatype Filter = Filter(
    ids: Option<seq<string>>, authors: Option<seq<string>>, kinds: Option<seq<int>>,
    since: Option<int>, until: Option<int>, limit: Option<int>, tags: seq<(string, seq<string>)>)

  predicate MatchesPrefixes(value: string, prefixes: seq<string>) {
    exists p :: p in prefixes && p <= value
  }

  predicate HasTag(e: Event, name: string, values: seq<string>) {
    exists tag :: tag in e.tags && |tag| >= 2 && tag[0] == name && tag[1] in values
  }

  predicate Matches(e: Event, f: Filter) {
    && (f.ids.Some? ==> MatchesPrefixes(e.id, f.ids.value))
    && (f.authors.Some? ==> MatchesPrefixes(e.pubkey, f.authors.value))
    && (f.kinds.Some? ==> e.kind in f.kinds.value)
    && (f.since.Some? ==> e.createdAt >= f.since.value)
    && (f.until.Some? ==> e.createdAt <= f.until.value)
    && forall t :: t in f.tags ==> HasTag(e, t.0, t.1)
  }

  predicate MatchesAny(e: Event, filters: seq<Filter>) {
    exists f :: f in filters && Matches(e, f)
  }

  /** The largest limit any of the filters asks for. */
  function RequestedLimit(filters: seq<Filter>): (r: Option<int>)
    ensures r.None? <==> forall f :: f in filters ==> f.limit.None?
    ensures r.Some? ==> exists f :: f in filters && f.limit == r
    ensures forall f :: f in filters && f.limit.Some? ==> r.Some? && f.limit.value <= r.value
  {
    if filters == [] then None
    else
      var rest := RequestedLimit(filters[1..]);
      match filters[0].limit
      case None => rest
      case Some(n) => if rest.Some? then Some(Max(n, rest.value)) else Some(n)
  }

  const DEFAULT_LIMIT := 500
  const LIMIT_CEILING := 5000

  function FilterLimit(filters: seq<Filter>): (n: nat)
    ensures 1 <= n <= LIMIT_CEILING
  {
    match RequestedLimit(filters)
    case None => DEFAULT_LIMIT
    case Some(n) => Max(1, Min(n, LIMIT_CEILING))
  }

  /** The limit of a list is the default when no filter asks, and otherwise the largest request, clipped
      to the range from 1 to the ceiling. */
  lemma FilterLimitIsLargestRequest(filters: seq<Filter>)
    ensures (forall f :: f in filters ==> f.limit.None?) ==> FilterLimit(filters) == 500
    ensures 1 <= FilterLimit(filters) <= 5000
    ensures forall f :: f in filters && f.limit.Some? ==> Min(f.limit.value, 5000) <= FilterLimit(filters)
    ensures (exists f :: f in filters && f.limit.Some?) && FilterLimit(filters) > 1 ==>
      exists f :: f in filters && f.limit.Some? && FilterLimit(filters) <= f.limit.value
  {
    var r := RequestedLimit(filters);
    if r.Some? {
      var f :| f in filters && f.limit == r;
    }
  }

  const MAX_FILTERS := 16
  const MAX_VALUES := 2000
  const MAX_PREFIXES := 128
  const MAX_STRING := 4096

  predicate Fits64(n: int) {
    -0x8000_0000_0000_0000 <= n < 0x8000_0000_0000_0000
  }

  predicate OptionFits(n: Option<int>) {
    n.Some? ==> Fits64(n.value)
  }

  function OptionSize<T>(values: Option<seq<T>>): nat {
    if values.Some? then |values.value| else 0
  }

  function OptionCount<T>(value: Option<T>): nat {
    if value.Some? then 1 else 0
  }

  function TagValues(tags: seq<(string, seq<string>)>): nat {
    if tags == [] then 0 else TagValues(tags[..|tags| - 1]) + |tags[|tags| - 1].1|
  }

  function ShortCount(prefixes: seq<string>): nat {
    if prefixes == [] then 0
    else ShortCount(prefixes[..|prefixes| - 1]) + (if |prefixes[|prefixes| - 1]| != 64 then 1 else 0)
  }

  predicate StringsFit(values: seq<string>) {
    forall s :: s in values ==> |s| <= MAX_STRING
  }

  predicate PrefixesFit(prefixes: Option<seq<string>>) {
    prefixes.Some? ==> StringsFit(prefixes.value) && ShortCount(prefixes.value) <= MAX_PREFIXES
  }

  function ValueCount(f: Filter): nat {
    OptionSize(f.ids) + OptionSize(f.authors) + OptionSize(f.kinds)
    + OptionCount(f.since) + OptionCount(f.until) + OptionCount(f.limit) + TagValues(f.tags)
  }

  /** The bounds within which the relay compiles a filter. */
  predicate FilterInBounds(f: Filter) {
    && ValueCount(f) <= MAX_VALUES
    && PrefixesFit(f.ids) && PrefixesFit(f.authors)
    && (f.kinds.Some? ==> forall k :: k in f.kinds.value ==> Fits64(k))
    && OptionFits(f.since) && OptionFits(f.until) && OptionFits(f.limit)
    && forall t :: t in f.tags ==> StringsFit(t.1)
  }

  predicate InBounds(filters: seq<Filter>) {
    |filters| <= MAX_FILTERS && forall f :: f in filters ==> FilterInBounds(f)
  }

  /** The positions of the prefixes that are not full 64-digit values. */
  function ShortPositions(prefixes: seq<string>): set<int> {
    set i | 0 <= i < |prefixes| && |prefixes[i]| != 64
  }

  lemma {:induction false} ShortCountCounts(prefixes: seq<string>)
    ensures ShortCount(prefixes) == |ShortPositions(prefixes)|
  {
    if prefixes != [] {
      var n := |prefixes| - 1;
      ShortCountCounts(prefixes[..n]);
      assert ShortPositions(prefixes)
          == ShortPositions(prefixes[..n]) + if |prefixes[n]| != 64 then {n} else {};
    }
  }

  ghost predicate ListInBounds(values: Option<seq<string>>) {
    values.Some? ==>
      (forall s :: s in values.value ==> |s| <= 4096) && |ShortPositions(values.value)| <= 128
  }

  /** The bounds in numbers: at most 16 filters, of at most 2000 values each, no string above 4096 characters,
      at most 128 ids and as many authors that are not full values, and 64-bit integers. */
  lemma InBoundsIff(filters: seq<Filter>)
    ensures InBounds(filters) <==>
      |filters| <= 16
      && forall f :: f in filters ==>
           ValueCount(f) <= 2000 && ListInBounds(f.ids) && ListInBounds(f.authors)
           && (f.kinds.Some? ==> forall k :: k in f.kinds.value ==> -0x8000_0000_0000_0000 <= k < 0x8000_0000_0000_0000)
           && (forall n :: Some(n) in {f.since, f.until, f.limit} ==>
                 -0x8000_0000_0000_0000 <= n < 0x8000_0000_0000_0000)
           && (forall t :: t in f.tags ==> forall s :: s in t.1 ==> |s| <= 4096)
  {
    hide ShortCount, ValueCount, ShortPositions;
    forall f | f in filters
      ensures PrefixesFit(f.ids) <==> ListInBounds(f.ids)
      ensures PrefixesFit(f.authors) <==> ListInBounds(f.authors)
      ensures (OptionFits(f.since) && OptionFits(f.until) && OptionFits(f.limit)) <==>
        forall n :: Some(n) in {f.since, f.until, f.limit} ==> -0x8000_0000_0000_0000 <= n < 0x8000_0000_0000_0000
    {
      if f.ids.Some? {
        ShortCountCounts(f.ids.value);
      }
      if f.authors.Some? {
        ShortCountCounts(f.authors.value);
      }
      NumbersFit(f);
    }
  }

  lemma NumbersFit(f: Filter)
    ensures (OptionFits(f.since) && OptionFits(f.until) && OptionFits(f.limit)) <==>
      forall n :: Some(n) in {f.since, f.until, f.limit} ==> -0x8000_0000_0000_0000 <= n < 0x8000_0000_0000_0000
  {
    var numbers := {f.since, f.until, f.limit};
    assert f.since in numbers && f.until in numbers && f.limit in numbers;
    if forall n :: Some(n) in numbers ==> -0x8000_0000_0000_0000 <= n < 0x8000_0000_0000_0000 {
      assert f.since.Some? ==> Some(f.since.value) in numbers;
      assert f.until.Some? ==> Some(f.until.value) in numbers;
      assert f.limit.Some? ==> Some(f.limit.value) in numbers;
    }
  }

  method CountShort(prefixes: seq<string>) returns (n: nat)
    ensures n == ShortCount(prefixes)
  {
    n := 0;
    for i := 0 to |prefixes|
      invariant n == ShortCount(prefixes[..i])
    {
      assert prefixes[..i + 1][..i] == prefixes[..i];
      if |prefixes[i]| != 64 {
        n := n + 1;
      }
    }
    assert prefixes[..|prefixes|] == prefixes;
  }

  method PrefixesWithinBounds(prefixes: Option<seq<string>>) returns (ok: bool)
    ensures ok == PrefixesFit(prefixes)
  {
    if prefixes.None? {
      return true;
    }
    if exists s :: s in prefixes.value && |s| > MAX_STRING {
      return false;
    }
    var short := CountShort(prefixes.value);
    ok := short <= MAX_PREFIXES;
  }

  /** One filter's share of validate_filter_bounds: a running count over its values, cut off early. */
  method FilterWithinBounds(f: Filter) returns (ok: bool)
    ensures ok == FilterInBounds(f)
  {
    var idsOk := PrefixesWithinBounds(f.ids);
    var authorsOk := PrefixesWithinBounds(f.authors);
    if !idsOk || !authorsOk {
      return false;
    }
    if f.kinds.Some? && exists k :: k in f.kinds.value && !Fits64(k) {
      return false;
    }
    if !OptionFits(f.since) || !OptionFits(f.until) || !OptionFits(f.limit) {
      return false;
    }
    var count := OptionSize(f.ids) + OptionSize(f.authors) + OptionSize(f.kinds)
                 + OptionCount(f.since) + OptionCount(f.until) + OptionCount(f.limit);
    ghost var scalars := count;
    for i := 0 to |f.tags|
      invariant count == scalars + TagValues(f.tags[..i])
      invariant forall j :: 0 <= j < i ==> StringsFit(f.tags[j].1)
    {
      if exists s :: s in f.tags[i].1 && |s| > MAX_STRING {
        return false;
      }
      assert f.tags[..i + 1][..i] == f.tags[..i];
      count := count + |f.tags[i].1|;
    }
    assert f.tags[..|f.tags|] == f.tags;
    ok := count <= MAX_VALUES;
  }

  /** Accepts exactly the filter lists within bounds. */
  method ValidateFilterBounds(filters: seq<Filter>) returns (ok: bool)
    ensures ok == InBounds(filters)
  {
    if |filters| > MAX_FILTERS {
      return false;
    }
    for i := 0 to |filters|
      invariant forall j :: 0 <= j < i ==> FilterInBounds(filters[j])
    {
      ok := FilterWithinBounds(filters[i]);
      if !ok {
        return;
      }
    }
    ok := true;
  }
}
