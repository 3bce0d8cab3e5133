/** Turning the backend's answer into panel data: the unit shared by all
    targets (`resolvePanelUnitFromTargets`) and the series loop of `query`. */
module ResponseMapper {
  import opened Runtime
  import opened Normalizer

  // ---------------------------------------------------------------------
  // resolvePanelUnitFromTargets

  /** The key `hasOwnProperty` looks up for a unit: a missing unit becomes the
      string "undefined". */
  function UnitKey(u: Option<string>): string
  {
    if u.Some? then u.value else "undefined"
  }

  /** `targets.every(t => t.unit === u)`, one target at a time. */
  function EveryUnit(targets: seq<StackdriverQuery>, u: Option<string>): (b: bool)
    ensures b <==> forall i :: 0 <= i < |targets| ==> targets[i].unit == u
  {
    if targets == [] then true else targets[0].unit == u && EveryUnit(targets[1..], u)
  }

  /** `resolvePanelUnitFromTargets`: the mapped unit when there is at least
      one target, every target has the unit of the first one, and the unit
      mapping table has an entry for it; `None` (undefined) otherwise. */
  function ResolvePanelUnitFromTargets(targets: seq<StackdriverQuery>, mappings: map<string, string>): (r: Option<string>)
    ensures r.Some? <==>
              && |targets| > 0
              && (forall i :: 0 <= i < |targets| ==> targets[i].unit == targets[0].unit)
              && UnitKey(targets[0].unit) in mappings
    ensures r.Some? ==> r.value == mappings[UnitKey(targets[0].unit)]
  {
    if |targets| > 0 && EveryUnit(targets, targets[0].unit) && UnitKey(targets[0].unit) in mappings then
      Some(mappings[UnitKey(targets[0].unit)])
    else None
  }

  /** Adding a target with the same unit changes nothing, and a target with a
      different unit removes the panel unit. */
  lemma {:induction false} ResolvePanelUnitAppend(targets: seq<StackdriverQuery>, t: StackdriverQuery, mappings: map<string, string>)
    requires |targets| > 0
    ensures t.unit == targets[0].unit ==>
              ResolvePanelUnitFromTargets(targets + [t], mappings) == ResolvePanelUnitFromTargets(targets, mappings)
    ensures t.unit != targets[0].unit ==> ResolvePanelUnitFromTargets(targets + [t], mappings).None?
  {
    var all := targets + [t];
    assert all[0] == targets[0];
    assert all[|targets|] == t;
    assert forall i :: 0 <= i < |targets| ==> all[i] == targets[i];
  }

  /** Targets without any unit share the unit looked up under "undefined". */
  lemma {:induction false} NoUnitLooksUpUndefined(targets: seq<StackdriverQuery>, mappings: map<string, string>)
    requires |targets| > 0
    requires forall i :: 0 <= i < |targets| ==> targets[i].unit.None?
    ensures ResolvePanelUnitFromTargets(targets, mappings)
            == if "undefined" in mappings then Some(mappings["undefined"]) else None
  {
  }

  // ---------------------------------------------------------------------
  // The series loop of query

  /** One data point as the backend sends it. */
  datatype Point = Point(value: real, timestamp: int)

  datatype Series = Series(name: string, points: seq<Point>)

  /** One entry of `data.results`; `series` is `None` when the property is
      missing. */
  datatype QueryResult = QueryResult(refId: string, meta: Props, series: Option<seq<Series>>)

  /** The body of the backend's answer; `results` is `None` when it is
      missing. */
  datatype TsdbResponse = TsdbResponse(results: Option<seq<QueryResult>>)

  /** One series handed to the panel; `unit` is `None` when the property is
      not set. */
  datatype TimeSerie = TimeSerie(target: string, datapoints: seq<Point>, refId: string, meta: Props, unit: Option<string>)

  /** The `if (unit)` test: only a non-empty resolved unit is attached. */
  function AttachedUnit(unit: Option<string>): (r: Option<string>)
    ensures r.Some? <==> unit.Some? && unit.value != ""
    ensures r.Some? ==> r == unit
  {
    if unit.Some? && unit.value != "" then unit else None
  }

  function ToTimeSerie(s: Series, res: QueryResult, unit: Option<string>): TimeSerie
  {
    TimeSerie(s.name, s.points, res.refId, res.meta, unit)
  }

  /** The series of one result, in order; none when it has no `series`. */
  function SeriesOf(res: QueryResult, unit: Option<string>): (r: seq<TimeSerie>)
  {
    if res.series.None? then []
    else seq(|res.series.value|, i requires 0 <= i < |res.series.value| => ToTimeSerie(res.series.value[i], res, unit))
  }

  /** How many series the results hold together. */
  function SeriesCount(results: seq<QueryResult>): nat
  {
    if results == [] then 0
    else
      var last := results[|results| - 1];
      SeriesCount(results[..|results| - 1]) + (if last.series.Some? then |last.series.value| else 0)
  }

  /** What the loop of `query` pushes, result after result. */
  function Reshaped(results: seq<QueryResult>, unit: Option<string>): seq<TimeSerie>
  {
    if results == [] then []
    else Reshaped(results[..|results| - 1], unit) + SeriesOf(results[|results| - 1], unit)
  }

  /** The series loop of `query`: for each result that has series, one output
      per series with the unit resolved from the raw targets attached when it
      is non-empty; no output at all without `results`. */
  method ReshapeResults(response: TsdbResponse, targets: seq<StackdriverQuery>, mappings: map<string, string>)
    returns (data: seq<TimeSerie>)
    ensures response.results.None? ==> data == []
    ensures response.results.Some? ==>
              data == Reshaped(response.results.value, AttachedUnit(ResolvePanelUnitFromTargets(targets, mappings)))
  {
    data := [];
    if response.results.None? {
      return;
    }
    var results := response.results.value;
    ghost var attached := AttachedUnit(ResolvePanelUnitFromTargets(targets, mappings));
    var i := 0;
    while i < |results|
      invariant 0 <= i <= |results|
      invariant data == Reshaped(results[..i], attached)
    {
      var res := results[i];
      assert results[..i + 1] == results[..i] + [res];
      ReshapedSnoc(results[..i], res, attached);
      if res.series.Some? {
        var unit := ResolvePanelUnitFromTargets(targets, mappings);
        var series := res.series.value;
        var j := 0;
        while j < |series|
          invariant 0 <= j <= |series|
          invariant data == Reshaped(results[..i], attached) + SeriesOf(res, attached)[..j]
        {
          var serie := TimeSerie(series[j].name, series[j].points, res.refId, res.meta, None);
          if unit.Some? && unit.value != "" {
            serie := serie.(unit := unit);
          }
          assert SeriesOf(res, attached)[..j + 1] == SeriesOf(res, attached)[..j] + [serie];
          data := data + [serie];
          j := j + 1;
        }
        assert SeriesOf(res, attached)[..|series|] == SeriesOf(res, attached);
      }
      i := i + 1;
    }
    assert results[..|results|] == results;
  }

  lemma {:induction false} SeriesCountAppend(a: seq<QueryResult>, b: seq<QueryResult>)
    ensures SeriesCount(a + b) == SeriesCount(a) + SeriesCount(b)
    decreases |b|
  {
    if b == [] {
      assert a + b == a;
    } else {
      var n := |b| - 1;
      assert (a + b)[..|a + b| - 1] == a + b[..n];
      assert (a + b)[|a + b| - 1] == b[n];
      SeriesCountAppend(a, b[..n]);
    }
  }

  /** The last result's series come last. */
  lemma ReshapedSnoc(results: seq<QueryResult>, last: QueryResult, unit: Option<string>)
    ensures Reshaped(results + [last], unit) == Reshaped(results, unit) + SeriesOf(last, unit)
  {
    var all := results + [last];
    assert all[..|all| - 1] == results;
    assert all[|all| - 1] == last;
  }

  lemma ReshapedAppendStep(a: seq<QueryResult>, init: seq<QueryResult>, last: QueryResult, unit: Option<string>)
    requires Reshaped(a + init, unit) == Reshaped(a, unit) + Reshaped(init, unit)
    ensures Reshaped(a + (init + [last]), unit) == Reshaped(a, unit) + Reshaped(init + [last], unit)
  {
    AppendAssociates(a, init, [last]);
    ReshapedSnoc(a + init, last, unit);
    ReshapedSnoc(init, last, unit);
    AppendAssociates(Reshaped(a, unit), Reshaped(init, unit), SeriesOf(last, unit));
  }

  /** Reshaping two runs of results is reshaping each in turn. */
  lemma {:induction false} ReshapedAppend(a: seq<QueryResult>, b: seq<QueryResult>, unit: Option<string>)
    ensures Reshaped(a + b, unit) == Reshaped(a, unit) + Reshaped(b, unit)
    ensures SeriesCount(a + b) == SeriesCount(a) + SeriesCount(b)
    decreases |b|
  {
    SeriesCountAppend(a, b);
    if b == [] {
      assert a + b == a;
    } else {
      var init, last := b[..|b| - 1], b[|b| - 1];
      assert b == init + [last];
      ReshapedAppend(a, init, unit);
      ReshapedAppendStep(a, init, last, unit);
    }
  }

  /** Exactly one output per series: the output has as many entries as the
      results hold series, every entry carries the same unit. */
  lemma {:induction false} ReshapedCount(results: seq<QueryResult>, unit: Option<string>)
    ensures |Reshaped(results, unit)| == SeriesCount(results)
    ensures forall i :: 0 <= i < |Reshaped(results, unit)| ==> Reshaped(results, unit)[i].unit == unit
  {
    if results != [] {
      ReshapedCount(results[..|results| - 1], unit);
    }
  }

  /** Series `k` of result `j` lands at position `SeriesCount(results[..j]) + k`
      of the output, carrying that series' name and points and that result's
      reference and metadata: the output keeps the order of the input. */
  lemma {:induction false} ReshapedPosition(results: seq<QueryResult>, unit: Option<string>, j: nat, k: nat)
    requires j < |results| && results[j].series.Some? && k < |results[j].series.value|
    ensures var out, s := Reshaped(results, unit), results[j].series.value[k];
            var p := SeriesCount(results[..j]) + k;
            && p < |out|
            && out[p] == TimeSerie(s.name, s.points, results[j].refId, results[j].meta, unit)
  {
    var before, here, after := results[..j], [results[j]], results[j + 1..];
    assert results == before + here + after;
    ReshapedAppend(before + here, after, unit);
    ReshapedAppend(before, here, unit);
    ReshapedCount(before, unit);
    ReshapedSnoc([], results[j], unit);
    assert [] + here == here;
  }
}
