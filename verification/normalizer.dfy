/** The query shapes of the Stackdriver data source, the migration of the
    legacy shape to the current one (`migrateQuery`) and the predicate that
    decides whether a query is sent (`shouldRunQuery`). */
module Normalizer {
  import opened Runtime
  import opened Template

  datatype QueryType = Metrics | Slo

  /** The metric-query properties: the string-valued ones in `props` and the
      two string lists, `None` when the property is missing. */
  datatype MetricQuery = MetricQuery(props: Props, filters: Option<seq<string>>, groupBys: Option<seq<string>>)

  /** One panel target. `metricQuery == None` is the legacy shape, which has no
      `metricQuery` property and keeps the metric-query properties at the top
      level, in `flat`; for the current shape `flat` holds whatever other
      top-level properties the target carries. */
  datatype StackdriverQuery = StackdriverQuery(
    refId: string,
    hide: bool,
    queryType: Option<QueryType>,
    unit: Option<string>,
    metricQuery: Option<MetricQuery>,
    sloQuery: Option<Props>,
    flat: MetricQuery)

  /** The top-level properties the migration takes out before the rest becomes
      the metric query. */
  const Destructured: set<string> := {"hide", "refId", "datasource", "key", "queryType", "maxLines", "metric"}

  /** What the SLO branch of `shouldRunQuery` requires to be non-empty. */
  const SloRequired: set<string> := {"selectorName", "serviceId", "sloId", "projectName"}

  /** What the metric branch of `shouldRunQuery` requires to be non-empty. */
  const MetricRequired: set<string> := {"metricType", "projectName"}

  /** The `...rest` of a legacy target: its flat properties without the
      destructured ones, with its top-level `unit` among them. */
  function LegacyRest(q: StackdriverQuery): (r: Props)
    ensures forall k :: k in Destructured ==> k !in r
    ensures r.Keys == (q.flat.props.Keys - Destructured) + (if q.unit.Some? then {"unit"} else {})
    ensures forall k :: k in r && k != "unit" ==> r[k] == q.flat.props[k]
    ensures q.unit.Some? ==> r["unit"] == q.unit.value
  {
    var rest := q.flat.props - Destructured;
    if q.unit.Some? then rest["unit" := q.unit.value] else rest
  }

  /** `migrateQuery`: a target that has a `metricQuery` is returned as it is; a
      legacy target becomes a metrics query whose metric query is the rest of
      its properties, with `view` defaulting to FULL and `projectName`
      substituted, falling back to the default project. */
  function MigrateQuery(q: StackdriverQuery, replace: Replacer, defaultProject: string): (r: StackdriverQuery)
    ensures r.metricQuery.Some?
    ensures q.metricQuery.Some? ==> r == q
    ensures q.metricQuery.None? ==>
              && r.refId == q.refId && r.hide == q.hide
              && r.queryType == Some(Metrics)
              && r.sloQuery.None? && r.unit.None?
    ensures q.metricQuery.None? ==>
              var rest, m := LegacyRest(q), r.metricQuery.value;
              && m.props.Keys == rest.Keys + {"view", "projectName"}
              && m.props["view"] == (if Has(rest, "view") then rest["view"] else "FULL")
              && m.props["projectName"]
                 == replace(if Has(rest, "projectName") then rest["projectName"] else defaultProject, map[], Plain)
              && (forall k :: k in rest && k != "view" && k != "projectName" ==> m.props[k] == rest[k])
              && m.filters == q.flat.filters && m.groupBys == q.flat.groupBys
  {
    if q.metricQuery.Some? then q
    else
      var rest := LegacyRest(q);
      var view := if Has(rest, "view") then rest["view"] else "FULL";
      var project := if Has(rest, "projectName") then rest["projectName"] else defaultProject;
      var metric := MetricQuery(
        rest["view" := view]["projectName" := replace(project, map[], Plain)],
        q.flat.filters, q.flat.groupBys);
      StackdriverQuery(q.refId, q.hide, Some(Metrics), None, Some(metric), None, MetricQuery(map[], None, None))
  }

  /** Migrating twice is migrating once. */
  lemma MigrateQueryIdempotent(q: StackdriverQuery, replace: Replacer, defaultProject: string)
    ensures MigrateQuery(MigrateQuery(q, replace, defaultProject), replace, defaultProject)
            == MigrateQuery(q, replace, defaultProject)
  {
  }

  /** `migrateQuery` as `getTimeSeries` calls it: passed to `map` without its
      receiver, so on a legacy target reading `this.templateSrv` (or
      `this.getDefaultProject`) throws a TypeError. */
  function MigrateQueryUnbound(q: StackdriverQuery): (r: Result<StackdriverQuery, Thrown>)
    ensures q.metricQuery.Some? ==> r == Ok(q)
    ensures q.metricQuery.None? ==> r == Err(TypeError)
  {
    if q.metricQuery.Some? then Ok(q) else Err(TypeError)
  }

  /** `shouldRunQuery`: hidden targets never run; an SLO target runs when its
      selector, service, SLO and project are all non-empty, any other target
      when its metric type and project are. Destructuring a missing
      `sloQuery` or `metricQuery` throws. */
  function ShouldRunQuery(q: StackdriverQuery): (r: Result<bool, Thrown>)
    ensures q.hide ==> r == Ok(false)
    ensures r.Err? ==> r.error == TypeError
    ensures r.Err? <==> !q.hide && (if q.queryType == Some(Slo) then q.sloQuery.None? else q.metricQuery.None?)
    ensures !q.hide && q.queryType == Some(Slo) && q.sloQuery.Some? ==>
              (r == Ok(true) <==> forall k :: k in SloRequired ==> Has(q.sloQuery.value, k))
    ensures !q.hide && q.queryType != Some(Slo) && q.metricQuery.Some? ==>
              (r == Ok(true) <==> forall k :: k in MetricRequired ==> Has(q.metricQuery.value.props, k))
  {
    if q.hide then Ok(false)
    else if q.queryType == Some(Slo) then
      match q.sloQuery
      case None => Err(TypeError)
      case Some(slo) =>
        Ok(Has(slo, "selectorName") && Has(slo, "serviceId") && Has(slo, "sloId") && Has(slo, "projectName"))
    else
      match q.metricQuery
      case None => Err(TypeError)
      case Some(m) => Ok(Has(m.props, "metricType") && Has(m.props, "projectName"))
  }

  /** A migrated target never makes `shouldRunQuery` throw unless it is a
      visible SLO target without an `sloQuery`; a migrated legacy target never
      does. */
  lemma {:induction false} MigratedQueryDecides(q: StackdriverQuery, replace: Replacer, defaultProject: string)
    ensures var m := MigrateQuery(q, replace, defaultProject);
            ShouldRunQuery(m).Err? <==> (q.metricQuery.Some? && !q.hide && q.queryType == Some(Slo) && q.sloQuery.None?)
  {
  }
}
