/** Building the time-series request: substitution of the metric and SLO
    properties (`interpolateProps`), of the flat filter list
    (`interpolateFilters`) and of the group-bys (`interpolateGroupBys`), the
    payload of one query (`prepareTimeSeriesQuery`), and the
    migrate-filter-prepare chain of `getTimeSeries`. */
module Builder {
  import opened Runtime
  import opened Template
  import opened Normalizer

  // ---------------------------------------------------------------------
  // interpolateProps

  /** `interpolateProps`: every non-empty string property is substituted
      (without a format); empty ones are kept as they are, and no property is
      added or removed. */
  function InterpolateProps(obj: Props, vars: ScopedVars, replace: Replacer): (r: Props)
    ensures r.Keys == obj.Keys
    ensures forall k :: k in obj && obj[k] == "" ==> r[k] == ""
    ensures forall k :: k in obj && obj[k] != "" ==> r[k] == replace(obj[k], vars, Plain)
  {
    map k | k in obj :: if obj[k] != "" then replace(obj[k], vars, Plain) else obj[k]
  }

  /** With a template service that changes nothing, interpolation is the
      identity. */
  lemma InterpolatePropsIdentity(obj: Props, vars: ScopedVars, replace: Replacer)
    requires forall s :: replace(s, vars, Plain) == s
    ensures InterpolateProps(obj, vars, replace) == obj
  {
    var r := InterpolateProps(obj, vars, replace);
    assert forall k :: k in obj ==> r[k] == obj[k];
  }

  // ---------------------------------------------------------------------
  // interpolateFilters

  /** One filter of the flat list: key, operator, value and condition. A
      position past the end of a short chunk is `undefined`, written "". */
  datatype Filter = Filter(key: string, operator: string, value: string, condition: string)

  /** `_.chunk(filters, 4)`: consecutive groups of four, the last one possibly
      shorter. */
  function Chunks(s: seq<string>): (r: seq<seq<string>>)
    ensures Concat(r) == s
    ensures forall i :: 0 <= i < |r| ==> 1 <= |r[i]| <= 4
    ensures forall i :: 0 <= i < |r| - 1 ==> |r[i]| == 4
    decreases |s|
  {
    if s == [] then []
    else if |s| <= 4 then
      assert Concat([s]) == s + Concat([]);
      [s]
    else
      var rest := Chunks(s[4..]);
      assert ([s[..4]] + rest)[1..] == rest;
      assert s == s[..4] + s[4..];
      [s[..4]] + rest
  }

  function At(chunk: seq<string>, i: nat): string
  {
    if i < |chunk| then chunk[i] else ""
  }

  /** The destructuring of one chunk in `interpolateFilters`; a falsy condition is left out, which
      reads back as "". */
  function ToFilter(chunk: seq<string>): Filter
  {
    Filter(At(chunk, 0), At(chunk, 1), At(chunk, 2), At(chunk, 3))
  }

  function ToFilters(chunks: seq<seq<string>>): (r: seq<Filter>)
    ensures |r| == |chunks|
  {
    if chunks == [] then [] else [ToFilter(chunks[0])] + ToFilters(chunks[1..])
  }

  /** The `reduce` of `interpolateFilters`: the filters whose value is not empty, in order. */
  function KeepValued(fs: seq<Filter>): (r: seq<Filter>)
  {
    if fs == [] then []
    else (if fs[0].value != "" then [fs[0]] else []) + KeepValued(fs[1..])
  }

  /** One filter on the wire: the key substituted, the operator verbatim, the
      value substituted in 'regex' format, and the condition only when it is
      there. */
  function RenderFilter(f: Filter, vars: ScopedVars, replace: Replacer): seq<string>
  {
    [replace(f.key, vars, Plain), f.operator, replace(f.value, vars, Regex)]
    + (if f.condition != "" then [f.condition] else [])
  }

  function RenderFilters(fs: seq<Filter>, vars: ScopedVars, replace: Replacer): seq<seq<string>>
  {
    if fs == [] then [] else [RenderFilter(fs[0], vars, replace)] + RenderFilters(fs[1..], vars, replace)
  }

  /** Rendering the valued filters of some chunks never gives back more
      strings than the chunks hold: a chunk keeps a value only with three
      elements or more, and a condition only with four. */
  lemma {:induction false} RenderedNoLonger(chunks: seq<seq<string>>, vars: ScopedVars, replace: Replacer)
    ensures |Concat(RenderFilters(KeepValued(ToFilters(chunks)), vars, replace))| <= |Concat(chunks)|
  {
    if chunks != [] {
      var f := ToFilter(chunks[0]);
      var rest := KeepValued(ToFilters(chunks[1..]));
      RenderedNoLonger(chunks[1..], vars, replace);
      var fs := ToFilters(chunks);
      assert fs[0] == f && fs[1..] == ToFilters(chunks[1..]);
      if f.value != "" {
        var kept := [f] + rest;
        assert KeepValued(fs) == kept;
        assert kept[0] == f && kept[1..] == rest;
        var rendered := RenderFilters(kept, vars, replace);
        assert rendered == [RenderFilter(f, vars, replace)] + RenderFilters(rest, vars, replace);
        assert rendered[0] == RenderFilter(f, vars, replace) && rendered[1..] == RenderFilters(rest, vars, replace);
      } else {
        assert KeepValued(fs) == rest;
      }
    }
  }

  /** `interpolateFilters`: chunk, drop the chunks without a value, render
      and flatten; the output is never longer than the input. */
  function InterpolateFilters(filters: seq<string>, vars: ScopedVars, replace: Replacer): (r: seq<string>)
    ensures |r| <= |filters|
  {
    RenderedNoLonger(Chunks(filters), vars, replace);
    Concat(RenderFilters(KeepValued(ToFilters(Chunks(filters))), vars, replace))
  }

  /** A full chunk at the front contributes key, operator and value, plus the
      condition when it is non-empty, if its raw value is non-empty, and
      nothing otherwise; the rest of the list is interpolated on its own. */
  lemma {:induction false} InterpolateFiltersChunk(c: seq<string>, rest: seq<string>, vars: ScopedVars, replace: Replacer)
    requires |c| == 4
    ensures InterpolateFilters(c + rest, vars, replace)
            == (if c[2] != "" then
                  [replace(c[0], vars, Plain), c[1], replace(c[2], vars, Regex)]
                  + (if c[3] != "" then [c[3]] else [])
                else [])
               + InterpolateFilters(rest, vars, replace)
  {
    var s := c + rest;
    assert s[..4] == c && s[4..] == rest;
    var cs := Chunks(s);
    assert cs == [c] + Chunks(rest);
    var fs := ToFilters(cs);
    assert fs == [ToFilter(c)] + ToFilters(Chunks(rest)) by {
      assert cs[1..] == Chunks(rest);
    }
    var kept := KeepValued(fs);
    assert fs[1..] == ToFilters(Chunks(rest));
    var tail := KeepValued(ToFilters(Chunks(rest)));
    if c[2] != "" {
      assert kept == [ToFilter(c)] + tail;
      var rendered := RenderFilters(kept, vars, replace);
      assert kept[1..] == tail;
      assert rendered == [RenderFilter(ToFilter(c), vars, replace)] + RenderFilters(tail, vars, replace);
      assert rendered[1..] == RenderFilters(tail, vars, replace);
    } else {
      assert kept == tail;
    }
  }

  /** A trailing chunk shorter than four: only one of exactly three elements
      with a non-empty value survives, without a condition. */
  lemma {:induction false} InterpolateFiltersTail(s: seq<string>, vars: ScopedVars, replace: Replacer)
    requires |s| < 4
    ensures InterpolateFilters(s, vars, replace)
            == if |s| == 3 && s[2] != "" then [replace(s[0], vars, Plain), s[1], replace(s[2], vars, Regex)] else []
  {
    if s != [] {
      assert [s][1..] == [];
      assert ToFilters([s][1..]) == [];
      var fs := ToFilters([s]);
      assert fs == [ToFilter(s)];
      var kept := KeepValued(fs);
      assert fs[1..] == [] && fs[0].value == At(s, 2);
      assert KeepValued(fs[1..]) == [];
      assert kept == (if At(s, 2) != "" then [ToFilter(s)] else []);
      if |s| == 3 && s[2] != "" {
        assert kept == [ToFilter(s)];
        assert RenderFilters(kept, vars, replace) == [RenderFilter(ToFilter(s), vars, replace)];
      } else {
        assert kept == [];
      }
    }
  }

  /** The list `["x", "=", "", "AND"]` holds one filter without a value; it is
      dropped entirely. */
  lemma EmptyValueFilterDropped(vars: ScopedVars, replace: Replacer)
    ensures InterpolateFilters(["x", "=", "", "AND"], vars, replace) == []
  {
    InterpolateFiltersChunk(["x", "=", "", "AND"], [], vars, replace);
    assert ["x", "=", "", "AND"] + [] == ["x", "=", "", "AND"];
  }

  // ---------------------------------------------------------------------
  // interpolateGroupBys

  /** What `interpolateGroupBys` computes: the 'csv' substitution of each
      group-by split on commas, concatenated in order. */
  function GroupBysOf(groupBys: seq<string>, vars: ScopedVars, replace: Replacer): (r: seq<string>)
    ensures |r| >= |groupBys|
    ensures forall i :: 0 <= i < |r| ==> ',' !in r[i]
  {
    if groupBys == [] then []
    else
      var init := GroupBysOf(groupBys[..|groupBys| - 1], vars, replace);
      var pieces := Split(replace(groupBys[|groupBys| - 1], vars, Csv), ',');
      assert forall i :: |init| <= i < |init| + |pieces| ==> (init + pieces)[i] == pieces[i - |init|];
      init + pieces
  }

  /** Each group-by contributes exactly the comma-split of its own 'csv'
      substitution, which has at least one entry. */
  lemma GroupBysOfOne(gb: string, vars: ScopedVars, replace: Replacer)
    ensures GroupBysOf([gb], vars, replace) == Split(replace(gb, vars, Csv), ',')
    ensures |GroupBysOf([gb], vars, replace)| >= 1
  {
    assert [gb][..0] == [];
  }

  /** The group-bys of two runs of inputs are those of each run in turn. */
  lemma {:induction false} GroupBysOfAppend(a: seq<string>, b: seq<string>, vars: ScopedVars, replace: Replacer)
    ensures GroupBysOf(a + b, vars, replace) == GroupBysOf(a, vars, replace) + GroupBysOf(b, vars, replace)
    decreases |b|
  {
    if b == [] {
      assert a + b == a;
    } else {
      var n := |b| - 1;
      assert (a + b)[..|a + b| - 1] == a + b[..n];
      assert (a + b)[|a + b| - 1] == b[n];
      GroupBysOfAppend(a, b[..n], vars, replace);
    }
  }

  /** `interpolateGroupBys`: the accumulator of its `forEach` loop. */
  method InterpolateGroupBys(groupBys: seq<string>, vars: ScopedVars, replace: Replacer) returns (r: seq<string>)
    ensures r == GroupBysOf(groupBys, vars, replace)
  {
    r := [];
    var i := 0;
    while i < |groupBys|
      invariant 0 <= i <= |groupBys|
      invariant r == GroupBysOf(groupBys[..i], vars, replace)
    {
      // `split` always returns an array, so only the `concat` branch runs.
      var interpolated := Split(replace(groupBys[i], vars, Csv), ',');
      assert groupBys[..i + 1][..i] == groupBys[..i];
      r := r + interpolated;
      i := i + 1;
    }
    assert groupBys[..|groupBys|] == groupBys;
  }

  lemma {:induction false} JoinAppend(a: seq<string>, b: seq<string>, sep: char)
    requires |a| >= 1 && |b| >= 1
    ensures Join(a + b, sep) == Join(a, sep) + [sep] + Join(b, sep)
  {
    if |a| == 1 {
      assert (a + b)[1..] == b;
    } else {
      assert (a + b)[1..] == a[1..] + b;
      JoinAppend(a[1..], b, sep);
    }
  }

  /** The substitutions joined with commas, in order. */
  function CsvJoined(groupBys: seq<string>, vars: ScopedVars, replace: Replacer): string
  {
    if groupBys == [] then ""
    else if |groupBys| == 1 then replace(groupBys[0], vars, Csv)
    else CsvJoined(groupBys[..|groupBys| - 1], vars, replace) + [','] + replace(groupBys[|groupBys| - 1], vars, Csv)
  }

  /** Group-bys are concatenated, not nested: the result is the comma-split of
      all substitutions joined with commas, so a variable that expands to
      several values yields several group-bys. */
  lemma {:induction false} GroupBysAreSplitOfJoined(groupBys: seq<string>, vars: ScopedVars, replace: Replacer)
    requires groupBys != []
    ensures GroupBysOf(groupBys, vars, replace) == Split(CsvJoined(groupBys, vars, replace), ',')
    ensures Join(GroupBysOf(groupBys, vars, replace), ',') == CsvJoined(groupBys, vars, replace)
  {
    var r := GroupBysOf(groupBys, vars, replace);
    if |groupBys| > 1 {
      var init := groupBys[..|groupBys| - 1];
      GroupBysAreSplitOfJoined(init, vars, replace);
      var pieces := Split(replace(groupBys[|groupBys| - 1], vars, Csv), ',');
      JoinAppend(GroupBysOf(init, vars, replace), pieces, ',');
    }
    SplitJoin(r, ',');
  }

  /** When no substitution holds a comma, there is one group-by per input. */
  lemma {:induction false} GroupBysWithoutCommas(groupBys: seq<string>, vars: ScopedVars, replace: Replacer)
    requires forall i :: 0 <= i < |groupBys| ==> ',' !in replace(groupBys[i], vars, Csv)
    ensures |GroupBysOf(groupBys, vars, replace)| == |groupBys|
    ensures forall i :: 0 <= i < |groupBys| ==> GroupBysOf(groupBys, vars, replace)[i] == replace(groupBys[i], vars, Csv)
  {
    if groupBys != [] {
      var n := |groupBys| - 1;
      GroupBysWithoutCommas(groupBys[..n], vars, replace);
      SplitNoSeparator(replace(groupBys[n], vars, Csv), ',');
    }
  }

  /** A group-by whose substitution is "a,b,c" yields three group-bys. */
  lemma CommaValueExpands(gb: string, vars: ScopedVars, replace: Replacer)
    requires replace(gb, vars, Csv) == "a,b,c"
    ensures GroupBysOf([gb], vars, replace) == ["a", "b", "c"]
  {
    assert [gb][..0] == [];
    assert Join(["a", "b", "c"], ',') == "a,b,c";
    SplitJoin(["a", "b", "c"], ',');
  }

  // ---------------------------------------------------------------------
  // prepareTimeSeriesQuery

  datatype PreparedMetricQuery = PreparedMetricQuery(props: Props, filters: seq<string>, groupBys: seq<string>)

  /** One entry of the `queries` array posted to the backend. */
  datatype TimeSeriesQuery = TimeSeriesQuery(
    datasourceId: int,
    refId: string,
    queryType: Option<QueryType>,
    intervalMs: int,
    requestType: string,
    metricQuery: PreparedMetricQuery,
    sloQuery: Props)

  function OrEmpty(xs: Option<seq<string>>): seq<string>
  {
    if xs.Some? then xs.value else []
  }

  /** `prepareTimeSeriesQuery`. The metric properties are substituted except
      `view`, which is the raw one or FULL; the filters and group-bys are
      interpolated; the SLO properties (none when missing) are substituted;
      the request type is always 'timeSeriesQuery'. */
  function PrepareTimeSeriesQuery(q: StackdriverQuery, datasourceId: int, vars: ScopedVars, intervalMs: int, replace: Replacer): (r: TimeSeriesQuery)
    requires q.metricQuery.Some?
    ensures r.requestType == "timeSeriesQuery"
    ensures r.datasourceId == datasourceId && r.refId == q.refId && r.queryType == q.queryType && r.intervalMs == intervalMs
    ensures var m := q.metricQuery.value;
            && r.metricQuery.props.Keys == m.props.Keys + {"view"}
            && r.metricQuery.props["view"] == (if Has(m.props, "view") then m.props["view"] else "FULL")
            && (forall k :: k in m.props && k != "view" && m.props[k] != "" ==>
                  r.metricQuery.props[k] == replace(m.props[k], vars, Plain))
            && (forall k :: k in m.props && k != "view" && m.props[k] == "" ==> r.metricQuery.props[k] == "")
            && r.metricQuery.filters == InterpolateFilters(OrEmpty(m.filters), vars, replace)
            && r.metricQuery.groupBys == GroupBysOf(OrEmpty(m.groupBys), vars, replace)
    ensures r.sloQuery == InterpolateProps(if q.sloQuery.Some? then q.sloQuery.value else map[], vars, replace)
  {
    var m := q.metricQuery.value;
    var view := if Has(m.props, "view") then m.props["view"] else "FULL";
    TimeSeriesQuery(
      datasourceId, q.refId, q.queryType, intervalMs, "timeSeriesQuery",
      PreparedMetricQuery(
        InterpolateProps(m.props, vars, replace)["view" := view],
        InterpolateFilters(OrEmpty(m.filters), vars, replace),
        GroupBysOf(OrEmpty(m.groupBys), vars, replace)),
      InterpolateProps(if q.sloQuery.Some? then q.sloQuery.value else map[], vars, replace))
  }

  // ---------------------------------------------------------------------
  // The migrate-filter-prepare chain of getTimeSeries

  function MigrateAll(targets: seq<StackdriverQuery>, replace: Replacer, defaultProject: string): (r: seq<StackdriverQuery>)
    ensures |r| == |targets|
    ensures forall i :: 0 <= i < |r| ==> r[i] == MigrateQuery(targets[i], replace, defaultProject)
  {
    if targets == [] then []
    else [MigrateQuery(targets[0], replace, defaultProject)] + MigrateAll(targets[1..], replace, defaultProject)
  }

  /** `filter(shouldRunQuery)`: the queries that run, in order; the first
      query on which the predicate throws makes the whole call throw. */
  function FilterRunnable(qs: seq<StackdriverQuery>): (r: Result<seq<StackdriverQuery>, Thrown>)
    ensures r.Ok? <==> forall i :: 0 <= i < |qs| ==> ShouldRunQuery(qs[i]).Ok?
    ensures r.Err? ==> r.error == TypeError
    ensures r.Ok? ==> |r.value| <= |qs|
    ensures r.Ok? ==> forall q :: q in r.value ==> q in qs
  {
    if qs == [] then Ok([])
    else
      match ShouldRunQuery(qs[0])
      case Err(e) => Err(e)
      case Ok(run) =>
        var rest := FilterRunnable(qs[1..]);
        if rest.Err? then rest
        else
          assert forall q :: q in qs ==> q == qs[0] || q in qs[1..];
          Ok((if run then [qs[0]] else []) + rest.value)
  }

  /** The survivors are exactly the queries the predicate accepts. */
  lemma {:induction false} FilterRunnableMembers(qs: seq<StackdriverQuery>)
    ensures FilterRunnable(qs).Ok? ==> forall q :: q in FilterRunnable(qs).value ==> ShouldRunQuery(q) == Ok(true)
    ensures FilterRunnable(qs).Ok? ==>
              forall q :: q in qs && ShouldRunQuery(q) == Ok(true) ==> q in FilterRunnable(qs).value
  {
    if qs != [] {
      FilterRunnableMembers(qs[1..]);
      assert forall q :: q in qs ==> q == qs[0] || q in qs[1..];
    }
  }

  /** Hidden queries never run, and never make the filter throw. */
  lemma {:induction false} FilterRunnableHidden(qs: seq<StackdriverQuery>)
    requires forall i :: 0 <= i < |qs| ==> qs[i].hide
    ensures FilterRunnable(qs) == Ok([])
  {
    if qs != [] {
      FilterRunnableHidden(qs[1..]);
    }
  }

  /** `filter` on one query keeps it exactly when the predicate says so, and
      throws when the predicate does. */
  lemma FilterRunnableOne(q: StackdriverQuery)
    ensures ShouldRunQuery(q).Err? ==> FilterRunnable([q]) == Err(TypeError)
    ensures ShouldRunQuery(q).Ok? ==> FilterRunnable([q]) == Ok(if ShouldRunQuery(q).value then [q] else [])
  {
    assert [q][1..] == [];
    assert FilterRunnable([q][1..]) == Ok([]);
    assert [q] + [] == [q];
  }

  /** `filter` on a list with a first query: that query's verdict, then the
      rest. */
  lemma FilterRunnableCons(q: StackdriverQuery, rest: seq<StackdriverQuery>)
    ensures ShouldRunQuery(q).Err? ==> FilterRunnable([q] + rest) == Err(TypeError)
    ensures ShouldRunQuery(q).Ok? ==>
              FilterRunnable([q] + rest)
              == if FilterRunnable(rest).Err? then FilterRunnable(rest)
                 else Ok((if ShouldRunQuery(q).value then [q] else []) + FilterRunnable(rest).value)
  {
    assert ([q] + rest)[0] == q;
    assert ([q] + rest)[1..] == rest;
  }

  lemma FilterRunnableAppendThrows(a: seq<StackdriverQuery>, b: seq<StackdriverQuery>)
    ensures FilterRunnable(a + b).Ok? <==> FilterRunnable(a).Ok? && FilterRunnable(b).Ok?
  {
    assert forall i :: 0 <= i < |a| ==> (a + b)[i] == a[i];
    assert forall i :: 0 <= i < |b| ==> (a + b)[|a| + i] == b[i];
  }

  /** `filter` on a concatenation throws iff it throws on either part, and
      otherwise keeps the survivors of the first part followed by those of the
      second: order and repetitions are kept. */
  lemma {:induction false} FilterRunnableAppend(a: seq<StackdriverQuery>, b: seq<StackdriverQuery>)
    ensures FilterRunnable(a + b).Ok? <==> FilterRunnable(a).Ok? && FilterRunnable(b).Ok?
    ensures FilterRunnable(a).Ok? && FilterRunnable(b).Ok? ==>
              FilterRunnable(a + b).value == FilterRunnable(a).value + FilterRunnable(b).value
  {
    FilterRunnableAppendThrows(a, b);
    if a == [] {
      assert a + b == b;
    } else {
      var tail := a[1..];
      assert a == [a[0]] + tail;
      assert a + b == [a[0]] + (tail + b);
      FilterRunnableCons(a[0], tail);
      FilterRunnableCons(a[0], tail + b);
      FilterRunnableAppend(tail, b);
      var keep: seq<StackdriverQuery> := if ShouldRunQuery(a[0]) == Ok(true) then [a[0]] else [];
      if FilterRunnable(tail).Ok? && FilterRunnable(b).Ok? {
        AppendAssociates(keep, FilterRunnable(tail).value, FilterRunnable(b).value);
      }
    }
  }

  /** `map` with a function that needs its argument to be in its domain. */
  function MapEach<A, B>(xs: seq<A>, f: A --> B): (r: seq<B>)
    requires forall i :: 0 <= i < |xs| ==> f.requires(xs[i])
    ensures |r| == |xs|
    ensures forall i :: 0 <= i < |xs| ==> r[i] == f(xs[i])
  {
    seq(|xs|, i requires 0 <= i < |xs| => f(xs[i]))
  }

  /** Mapping two runs of a list is mapping each in turn. */
  lemma MapEachAppend<A, B>(a: seq<A>, b: seq<A>, f: A --> B)
    requires forall i :: 0 <= i < |a| ==> f.requires(a[i])
    requires forall i :: 0 <= i < |b| ==> f.requires(b[i])
    ensures MapEach(a + b, f) == MapEach(a, f) + MapEach(b, f)
  {
    var l, r := MapEach(a + b, f), MapEach(a, f) + MapEach(b, f);
    forall i | 0 <= i < |l|
      ensures l[i] == r[i]
    {
      if i < |a| { assert (a + b)[i] == a[i]; } else { assert (a + b)[i] == b[i - |a|]; }
    }
  }

  /** `prepareTimeSeriesQuery` as the callback of `map`. */
  function Preparer(datasourceId: int, vars: ScopedVars, intervalMs: int, replace: Replacer): StackdriverQuery --> TimeSeriesQuery
  {
    (q: StackdriverQuery) requires q.metricQuery.Some? => PrepareTimeSeriesQuery(q, datasourceId, vars, intervalMs, replace)
  }

  function PrepareAll(qs: seq<StackdriverQuery>, datasourceId: int, vars: ScopedVars, intervalMs: int, replace: Replacer): (r: seq<TimeSeriesQuery>)
    requires forall q :: q in qs ==> q.metricQuery.Some?
    ensures |r| == |qs|
    ensures forall i :: 0 <= i < |r| ==> r[i] == PrepareTimeSeriesQuery(qs[i], datasourceId, vars, intervalMs, replace)
  {
    MapEach(qs, Preparer(datasourceId, vars, intervalMs, replace))
  }

  /** The queries `getTimeSeries` sends, with `migrateQuery` bound to the data
      source: one per target that should run, in order, each of request type
      'timeSeriesQuery' and with a non-empty view. */
  function BuildQueries(targets: seq<StackdriverQuery>, replace: Replacer, defaultProject: string,
                        datasourceId: int, vars: ScopedVars, intervalMs: int): (r: Result<seq<TimeSeriesQuery>, Thrown>)
    ensures r.Err? ==> r.error == TypeError
    ensures r.Ok? ==> |r.value| <= |targets|
    ensures r.Ok? ==> forall i :: 0 <= i < |r.value| ==>
              r.value[i].requestType == "timeSeriesQuery" && Has(r.value[i].metricQuery.props, "view")
  {
    var migrated := MigrateAll(targets, replace, defaultProject);
    match FilterRunnable(migrated)
    case Err(e) => Err(e)
    case Ok(running) => Ok(PrepareAll(running, datasourceId, vars, intervalMs, replace))
  }

  lemma {:induction false} MigrateAllAppend(a: seq<StackdriverQuery>, b: seq<StackdriverQuery>, replace: Replacer, defaultProject: string)
    ensures MigrateAll(a + b, replace, defaultProject) == MigrateAll(a, replace, defaultProject) + MigrateAll(b, replace, defaultProject)
  {
    var l, r := MigrateAll(a + b, replace, defaultProject), MigrateAll(a, replace, defaultProject) + MigrateAll(b, replace, defaultProject);
    assert forall i :: 0 <= i < |l| ==> l[i] == r[i] by {
      forall i | 0 <= i < |l| ensures l[i] == r[i] {
        if i < |a| { assert (a + b)[i] == a[i]; } else { assert (a + b)[i] == b[i - |a|]; }
      }
    }
  }

  /** Preparing two runs of queries is preparing each in turn. */
  lemma PrepareAllAppend(a: seq<StackdriverQuery>, b: seq<StackdriverQuery>, datasourceId: int,
                         vars: ScopedVars, intervalMs: int, replace: Replacer)
    requires forall q :: q in a ==> q.metricQuery.Some?
    requires forall q :: q in b ==> q.metricQuery.Some?
    ensures PrepareAll(a + b, datasourceId, vars, intervalMs, replace)
            == PrepareAll(a, datasourceId, vars, intervalMs, replace) + PrepareAll(b, datasourceId, vars, intervalMs, replace)
  {
    MapEachAppend(a, b, Preparer(datasourceId, vars, intervalMs, replace));
  }

  /** Targets that are all hidden build no query and never throw. */
  lemma HiddenTargetsBuildNothing(targets: seq<StackdriverQuery>, replace: Replacer, defaultProject: string,
                                  datasourceId: int, vars: ScopedVars, intervalMs: int)
    ensures (forall i :: 0 <= i < |targets| ==> targets[i].hide) ==>
              BuildQueries(targets, replace, defaultProject, datasourceId, vars, intervalMs) == Ok([])
  {
    if forall i :: 0 <= i < |targets| ==> targets[i].hide {
      var migrated := MigrateAll(targets, replace, defaultProject);
      assert forall q :: q in migrated ==> q.hide;
      FilterRunnableHidden(migrated);
    }
  }

  /** One target: it throws iff `shouldRunQuery` throws on its migration;
      otherwise one prepared query of the migrated target when it should run,
      none when it should not. */
  lemma BuildQueriesOne(t: StackdriverQuery, replace: Replacer, defaultProject: string,
                        datasourceId: int, vars: ScopedVars, intervalMs: int)
    ensures var m := MigrateQuery(t, replace, defaultProject);
            var built := BuildQueries([t], replace, defaultProject, datasourceId, vars, intervalMs);
            && (ShouldRunQuery(m).Err? ==> built == Err(TypeError))
            && (ShouldRunQuery(m).Ok? ==>
                  built == Ok(if ShouldRunQuery(m).value then [PrepareTimeSeriesQuery(m, datasourceId, vars, intervalMs, replace)] else []))
  {
    var m := MigrateQuery(t, replace, defaultProject);
    assert MigrateAll([t], replace, defaultProject) == [m];
    FilterRunnableOne(m);
    assert PrepareAll([m], datasourceId, vars, intervalMs, replace)
           == [PrepareTimeSeriesQuery(m, datasourceId, vars, intervalMs, replace)];
  }

  /** Building for a concatenation of targets throws iff building throws for
      either part, and otherwise sends the queries of the first part followed
      by those of the second. With `BuildQueriesOne` this pins down the sent
      queries: the prepared migrated targets that should run, in order. */
  lemma {:induction false} BuildQueriesAppend(a: seq<StackdriverQuery>, b: seq<StackdriverQuery>, replace: Replacer,
                                              defaultProject: string, datasourceId: int, vars: ScopedVars, intervalMs: int)
    ensures var ba := BuildQueries(a, replace, defaultProject, datasourceId, vars, intervalMs);
            var bb := BuildQueries(b, replace, defaultProject, datasourceId, vars, intervalMs);
            var bab := BuildQueries(a + b, replace, defaultProject, datasourceId, vars, intervalMs);
            && (bab.Ok? <==> ba.Ok? && bb.Ok?)
            && (ba.Ok? && bb.Ok? ==> bab.value == ba.value + bb.value)
  {
    var ma, mb := MigrateAll(a, replace, defaultProject), MigrateAll(b, replace, defaultProject);
    MigrateAllAppend(a, b, replace, defaultProject);
    FilterRunnableAppend(ma, mb);
    var fa, fb := FilterRunnable(ma), FilterRunnable(mb);
    if fa.Ok? && fb.Ok? {
      PrepareAllAppend(fa.value, fb.value, datasourceId, vars, intervalMs, replace);
    }
  }

  /** A target is safe for `shouldRunQuery` after migration: anything but a
      visible SLO target that has a metric query but no SLO query. */
  predicate Decidable(t: StackdriverQuery)
  {
    t.metricQuery.None? || t.hide || t.queryType != Some(Slo) || t.sloQuery.Some?
  }

  /** Building fails exactly when some target is not decidable. */
  lemma {:induction false} BuildQueriesSucceeds(targets: seq<StackdriverQuery>, replace: Replacer, defaultProject: string,
                                                datasourceId: int, vars: ScopedVars, intervalMs: int)
    ensures BuildQueries(targets, replace, defaultProject, datasourceId, vars, intervalMs).Ok?
            <==> forall i :: 0 <= i < |targets| ==> Decidable(targets[i])
  {
    var migrated := MigrateAll(targets, replace, defaultProject);
    forall i | 0 <= i < |targets|
      ensures ShouldRunQuery(migrated[i]).Ok? <==> Decidable(targets[i])
    {
      MigratedQueryDecides(targets[i], replace, defaultProject);
    }
  }

  /** The chain as `getTimeSeries` writes it: `map(this.migrateQuery)` loses the
      receiver, so the first legacy target throws. */
  function MigrateAllUnbound(targets: seq<StackdriverQuery>): (r: Result<seq<StackdriverQuery>, Thrown>)
    ensures r.Ok? <==> forall i :: 0 <= i < |targets| ==> targets[i].metricQuery.Some?
    ensures r.Err? ==> r.error == TypeError
    ensures r.Ok? ==> r.value == targets
  {
    if targets == [] then Ok([])
    else
      match MigrateQueryUnbound(targets[0])
      case Err(e) => Err(e)
      case Ok(q) =>
        match MigrateAllUnbound(targets[1..])
        case Err(e) => Err(e)
        case Ok(rest) => Ok([q] + rest)
  }

  function BuildQueriesAsWritten(targets: seq<StackdriverQuery>, datasourceId: int, vars: ScopedVars,
                                 intervalMs: int, replace: Replacer): (r: Result<seq<TimeSeriesQuery>, Thrown>)
    ensures (exists i :: 0 <= i < |targets| && targets[i].metricQuery.None?) ==> r == Err(TypeError)
  {
    match MigrateAllUnbound(targets)
    case Err(e) => Err(e)
    case Ok(migrated) =>
      match FilterRunnable(migrated)
      case Err(e) => Err(e)
      case Ok(running) => Ok(PrepareAll(running, datasourceId, vars, intervalMs, replace))
  }

  /** Without legacy targets the chain as written sends the same queries as
      the bound one: the receiver is lost only on the legacy branch. */
  lemma {:induction false} AsWrittenAgreesWithoutLegacy(targets: seq<StackdriverQuery>, replace: Replacer, defaultProject: string,
                                                        datasourceId: int, vars: ScopedVars, intervalMs: int)
    requires forall i :: 0 <= i < |targets| ==> targets[i].metricQuery.Some?
    ensures BuildQueriesAsWritten(targets, datasourceId, vars, intervalMs, replace)
            == BuildQueries(targets, replace, defaultProject, datasourceId, vars, intervalMs)
  {
    var migrated := MigrateAll(targets, replace, defaultProject);
    assert migrated == targets;
  }

  /** A single visible legacy target with a metric type and a project: as
      written the request is never built, while the bound migration builds
      exactly one query for it. */
  lemma LegacyTargetRejectedAsWritten(q: StackdriverQuery, replace: Replacer, defaultProject: string,
                                      datasourceId: int, vars: ScopedVars, intervalMs: int)
    requires q.metricQuery.None? && !q.hide
    requires Has(q.flat.props, "metricType")
    requires replace(if Has(LegacyRest(q), "projectName") then LegacyRest(q)["projectName"] else defaultProject, map[], Plain) != ""
    ensures BuildQueriesAsWritten([q], datasourceId, vars, intervalMs, replace) == Err(TypeError)
    ensures var built := BuildQueries([q], replace, defaultProject, datasourceId, vars, intervalMs);
            built.Ok? && |built.value| == 1 && built.value[0].refId == q.refId
  {
    var m := MigrateQuery(q, replace, defaultProject);
    assert Has(m.metricQuery.value.props, "metricType");
    assert ShouldRunQuery(m) == Ok(true);
    assert MigrateAll([q], replace, defaultProject) == [m];
    assert FilterRunnable([m]) == Ok([m]) by {
      assert [m][1..] == [];
    }
    assert [q][0] == q;
  }
}
