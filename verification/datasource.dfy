/** The Stackdriver data source object: its settings (`jsonData`) with the
    lazily discovered GCE default project, its never-invalidated resource
    cache (`sloCache`) with the mappings applied to listed metric
    descriptors, services and service-level objectives, the connection test,
    and the `getTimeSeries` and `query` entry points. */
module Datasource {
  import opened Runtime
  import opened Template
  import opened Normalizer
  import opened Builder
  import opened ResponseMapper
  import opened ResourceClient

  // ---------------------------------------------------------------------
  // Settings and the GCE default project

  /** The settings the data source reads; "" stands for a missing value. */
  datatype JsonData = JsonData(authenticationType: string, defaultProject: string, gceDefaultProject: string)

  /** `getDefaultProject`: the discovered GCE project under GCE
      authentication, the configured one otherwise. */
  function DefaultProject(j: JsonData): (r: string)
    ensures j.authenticationType == "gce" ==> (r == "" <==> NeedsGceProject(j))
    ensures j.authenticationType != "gce" ==> r == j.defaultProject
  {
    if j.authenticationType == "gce" then j.gceDefaultProject else j.defaultProject
  }

  /** Whether `ensureGCEDefaultProject` has to ask the backend. */
  predicate NeedsGceProject(j: JsonData)
  {
    j.authenticationType == "gce" && j.gceDefaultProject == ""
  }

  /** What `getGCEDefaultProject` resolves to for the `meta` of its result:
      the `defaultProject` found there, "" when either is missing. */
  function DiscoveredProject(meta: Option<Props>): string
  {
    if meta.Some? && "defaultProject" in meta.value then meta.value["defaultProject"] else ""
  }

  /** `ensureGCEDefaultProject` on the settings, given what the discovery
      request yields: settings that do not need a project are kept; otherwise
      the discovered project is stored, or the rejection is passed on and the
      settings are kept. */
  function EnsureStep(j: JsonData, discovery: Result<Option<Props>, Thrown>): (r: Result<JsonData, Thrown>)
    ensures !NeedsGceProject(j) ==> r == Ok(j)
    ensures NeedsGceProject(j) && discovery.Err? ==> r == Err(discovery.error)
    ensures r.Ok? ==> r.value.authenticationType == j.authenticationType && r.value.defaultProject == j.defaultProject
  {
    if !NeedsGceProject(j) then Ok(j)
    else
      match discovery
      case Err(e) => Err(e)
      case Ok(meta) => Ok(j.(gceDefaultProject := DiscoveredProject(meta)))
  }

  /** A non-empty discovered project settles the settings: the default
      project is the discovered one and no later call asks again, whatever
      its request would yield. */
  lemma EnsureStepSettles(j: JsonData, meta: Option<Props>, later: Result<Option<Props>, Thrown>)
    requires NeedsGceProject(j) && DiscoveredProject(meta) != ""
    ensures var r := EnsureStep(j, Ok(meta));
            && r.Ok? && !NeedsGceProject(r.value)
            && DefaultProject(r.value) == DiscoveredProject(meta)
            && EnsureStep(r.value, later) == r
  {
  }

  /** An empty discovered project leaves the settings as they were, with an
      empty default project, so the next call asks again and settles as the
      first one would have. */
  lemma EnsureStepEmptyDiscovery(j: JsonData, meta: Option<Props>)
    requires NeedsGceProject(j) && DiscoveredProject(meta) == ""
    ensures EnsureStep(j, Ok(meta)) == Ok(j)
    ensures DefaultProject(EnsureStep(j, Ok(meta)).value) == ""
    ensures forall later :: EnsureStep(EnsureStep(j, Ok(meta)).value, later) == EnsureStep(j, later)
  {
  }

  // ---------------------------------------------------------------------
  // Mapping listed objects

  /** A `mapFunc` of `resourceCache`; `None` where the callback throws. */
  type Mapper = Props -> Option<Props>

  /** `list.map(mapFunc)`: `None` as soon as one call throws. */
  function MapAll(items: seq<Props>, f: Mapper): (r: Option<seq<Props>>)
    ensures r.Some? <==> forall i :: 0 <= i < |items| ==> f(items[i]).Some?
    ensures r.Some? ==> |r.value| == |items| && forall i :: 0 <= i < |items| ==> r.value[i] == f(items[i]).value
  {
    if items == [] then Some([])
    else
      var head := f(items[0]);
      var tail := MapAll(items[1..], f);
      if head.None? || tail.None? then
        assert head.None? ==> !f(items[0]).Some?;
        None
      else Some([head.value] + tail.value)
  }

  /** The callback of `getMetricTypes`: adds `service` (the type up to its
      first slash), `serviceShortName` (the service up to its first dot) and
      `displayName` (defaulting to the type); throws without a type. */
  function DescribeMetric(m: Props): (r: Option<Props>)
    ensures r.None? <==> "type" !in m
    ensures r.Some? ==> r.value.Keys == m.Keys + {"service", "serviceShortName", "displayName"}
    ensures r.Some? ==> forall k :: k in m && k != "service" && k != "serviceShortName" && k != "displayName" ==> r.value[k] == m[k]
    ensures r.Some? ==>
              && r.value["service"] == TextBefore(m["type"], '/')
              && r.value["serviceShortName"] == TextBefore(r.value["service"], '.')
              && r.value["displayName"] == (if Has(m, "displayName") then m["displayName"] else m["type"])
  {
    if "type" !in m then None
    else
      var service := TextBefore(m["type"], '/');
      Some(m["service" := service]
            ["serviceShortName" := TextBefore(service, '.')]
            ["displayName" := if Has(m, "displayName") then m["displayName"] else m["type"]])
  }

  /** For a type `x.y/z` whose `x` has no dot and `x.y` no slash, the service
      is `x.y` and its short name `x`; the display name defaults to the
      type. */
  lemma {:induction false} DescribeQualifiedMetric(m: Props, x: string, y: string, z: string)
    requires '.' !in x && '/' !in x && '/' !in y
    requires "type" in m && m["type"] == x + "." + y + "/" + z
    ensures var d := DescribeMetric(m).value;
            && d["service"] == x + "." + y
            && d["serviceShortName"] == x
            && d["displayName"] == (if Has(m, "displayName") then m["displayName"] else m["type"])
  {
    var service := x + "." + y;
    assert '/' !in service by {
      assert forall i :: 0 <= i < |service| ==> service[i] == (if i < |x| then x[i] else if i == |x| then '.' else y[i - |x| - 1]);
    }
    assert m["type"] == service + ['/'] + z;
    SplitAfterPiece(service, '/', z);
    assert service == x + ['.'] + y;
    SplitAfterPiece(x, '.', y);
  }

  /** The callback of `getSLOServices` and `getServiceLevelObjectives`: value
      and label are the last segment of the name; throws without a name. */
  function ServiceOption(item: Props): (r: Option<Props>)
    ensures r.None? <==> "name" !in item
    ensures r.Some? ==> r.value.Keys == {"value", "label"} && r.value["value"] == r.value["label"]
  {
    if "name" !in item then None
    else
      var segment := LastSegment(item["name"]);
      Some(map["value" := segment, "label" := segment])
  }

  /** The value and label of an option are the text after the last slash of
      the name once trailing slashes are stripped. */
  lemma ServiceOptionByLastName(item: Props)
    requires "name" in item
    ensures ServiceOption(item).Some?
    ensures ServiceOption(item).value["value"] == AfterLastSlash(StripTrailingSlashes(item["name"]))
  {
    LastSegmentIsAfterLastSlash(item["name"]);
  }

  /** A resource name `p/s` with a non-empty last segment `s` lists as `s`. */
  lemma {:induction false} ServiceOptionOfName(item: Props, p: string, s: string)
    requires '/' !in s && s != []
    requires "name" in item && item["name"] == p + ['/'] + s
    ensures ServiceOption(item).Some? && ServiceOption(item).value["value"] == s
  {
    var name := p + ['/'] + s;
    LastSegmentIsAfterLastSlash(name);
    var t := StripTrailingSlashes(name);
    assert name[|name| - 1] == s[|s| - 1];
    assert t == name;
    var a := AfterLastSlash(t);
    assert name[|p| + 1..] == s;
    assert name[|name| - |s| - 1] == '/';
    assert |a| == |s|;
    assert a == name[|name| - |s|..];
  }

  // ---------------------------------------------------------------------
  // resourceCache as a state transition

  /** The resource cache: mapped lists by request path. */
  type Cache = map<string, seq<Props>>

  /** The list a reply holds for a path: the property named by the path's
      last segment, none when it is missing. */
  function Listed(reply: Reply, path: string): seq<Props>
  {
    if LastSegment(path) in reply.data then reply.data[LastSegment(path)] else []
  }

  /** The property `resourceCache` reads is named by the text after the last
      slash of the path once trailing slashes are stripped. */
  lemma ListedByLastName(reply: Reply, path: string)
    ensures var key := AfterLastSlash(StripTrailingSlashes(path));
            && (key in reply.data ==> Listed(reply, path) == reply.data[key])
            && (key !in reply.data ==> Listed(reply, path) == [])
  {
    LastSegmentIsAfterLastSlash(path);
  }

  datatype CacheResult = CacheResult(list: seq<Props>, cache: Cache)

  /** `resourceCache` given what its request would yield: a stored path is
      answered from the cache; otherwise a reply whose list maps without
      throwing is stored and returned, and anything else returns an empty
      list and stores nothing. */
  function CacheStep(cache: Cache, path: string, fetched: Result<Reply, Thrown>, f: Mapper): (r: CacheResult)
    ensures path in cache ==> r == CacheResult(cache[path], cache)
    ensures r.cache.Keys == cache.Keys || r.cache.Keys == cache.Keys + {path}
    ensures forall k :: k in cache ==> r.cache[k] == cache[k]
    ensures path in r.cache ==> r.cache[path] == r.list
    ensures path !in r.cache ==> r.list == []
  {
    if path in cache then CacheResult(cache[path], cache)
    else if fetched.Err? then CacheResult([], cache)
    else
      match MapAll(Listed(fetched.value, path), f)
      case None => CacheResult([], cache)
      case Some(list) => CacheResult(list, cache[path := list])
  }

  /** A request that is answered and whose list maps fills the cache with
      exactly the mapped list; the next call for the path is a hit, whatever
      its request would yield. */
  lemma CacheStepStores(cache: Cache, path: string, reply: Reply, f: Mapper, later: Result<Reply, Thrown>)
    requires path !in cache
    requires forall i :: 0 <= i < |Listed(reply, path)| ==> f(Listed(reply, path)[i]).Some?
    ensures var r := CacheStep(cache, path, Ok(reply), f);
            && |r.list| == |Listed(reply, path)|
            && (forall i :: 0 <= i < |r.list| ==> r.list[i] == f(Listed(reply, path)[i]).value)
            && r.cache == cache[path := r.list]
            && CacheStep(r.cache, path, later, f) == r
  {
  }

  /** A failed request, or a list one of whose items the callback rejects,
      returns an empty list and leaves the cache alone. */
  lemma CacheStepFailure(cache: Cache, path: string, fetched: Result<Reply, Thrown>, f: Mapper)
    requires path !in cache
    requires fetched.Err? || exists i :: 0 <= i < |Listed(fetched.value, path)| && f(Listed(fetched.value, path)[i]).None?
    ensures CacheStep(cache, path, fetched, f) == CacheResult([], cache)
  {
  }

  /** One call of `resourceCache`: its path and what its request would
      yield. */
  datatype Call = Call(path: string, fetched: Result<Reply, Thrown>)

  /** The cache after a sequence of calls. */
  function CacheRun(cache: Cache, calls: seq<Call>, f: Mapper): Cache
    decreases |calls|
  {
    if calls == [] then cache
    else CacheRun(CacheStep(cache, calls[0].path, calls[0].fetched, f).cache, calls[1..], f)
  }

  /** The cache is never invalidated: over any sequence of calls every
      stored entry stays as it is. */
  lemma {:induction false} CacheRunKeepsEntries(cache: Cache, calls: seq<Call>, f: Mapper)
    ensures cache.Keys <= CacheRun(cache, calls, f).Keys
    ensures forall k :: k in cache ==> CacheRun(cache, calls, f)[k] == cache[k]
    decreases |calls|
  {
    if calls != [] {
      var next := CacheStep(cache, calls[0].path, calls[0].fetched, f).cache;
      CacheRunKeepsEntries(next, calls[1..], f);
    }
  }

  // ---------------------------------------------------------------------
  // getTimeSeries

  /** The `/api/tsdb/query` endpoint: what posting these queries yields. */
  type Tsdb = seq<TimeSeriesQuery> -> Result<TsdbResponse, Thrown>

  /** What `getTimeSeries` yields once the settings are ensured: the built
      queries are posted when there are any; with none (in particular when
      every target is hidden), no request is made and the answer has empty
      results; a target `shouldRunQuery` throws on makes it reject. */
  function TimeSeriesOutcome(j: JsonData, datasourceId: int, targets: seq<StackdriverQuery>, vars: ScopedVars,
                             intervalMs: int, replace: Replacer, tsdb: Tsdb): (r: Result<TsdbResponse, Thrown>)
    ensures var built := BuildQueries(targets, replace, DefaultProject(j), datasourceId, vars, intervalMs);
            && (built.Err? ==> r == Err(TypeError))
            && (built.Ok? && built.value == [] ==> r == Ok(TsdbResponse(Some([]))))
            && (built.Ok? && built.value != [] ==> r == tsdb(built.value))
    ensures (forall i :: 0 <= i < |targets| ==> targets[i].hide) ==> r == Ok(TsdbResponse(Some([])))
  {
    HiddenTargetsBuildNothing(targets, replace, DefaultProject(j), datasourceId, vars, intervalMs);
    match BuildQueries(targets, replace, DefaultProject(j), datasourceId, vars, intervalMs)
    case Err(e) => Err(e)
    case Ok(queries) => if |queries| > 0 then tsdb(queries) else Ok(TsdbResponse(Some([])))
  }

  // ---------------------------------------------------------------------
  // The data source object

  class StackdriverDatasource {
    const id: int
    const baseUrl: string
    const authenticationType: string
    /** The template service's `replace`. */
    const replace: Replacer
    /** The unit mapping table, keyed by Stackdriver unit. */
    const unitMappings: map<string, string>
    var jsonData: JsonData
    var sloCache: Cache

    /** The constructor: the base URL of the API proxy, the authentication type
        defaulting to "jwt", and an empty cache. */
    constructor (id: int, url: string, jsonData: JsonData, replace: Replacer, unitMappings: map<string, string>)
      ensures this.id == id && this.replace == replace && this.unitMappings == unitMappings
      ensures baseUrl == url + "/stackdriver/v3/projects/"
      ensures authenticationType == if jsonData.authenticationType != "" then jsonData.authenticationType else "jwt"
      ensures this.jsonData == jsonData && sloCache == map[]
    {
      this.id := id;
      this.baseUrl := url + "/stackdriver/v3/projects/";
      this.authenticationType := if jsonData.authenticationType != "" then jsonData.authenticationType else "jwt";
      this.replace := replace;
      this.unitMappings := unitMappings;
      this.jsonData := jsonData;
      this.sloCache := map[];
    }

    /** `ensureGCEDefaultProject`, given what the discovery request would
        yield; `thrown` is the rejection it passes on. */
    method EnsureGceDefaultProject(discovery: Result<Option<Props>, Thrown>) returns (thrown: Option<Thrown>)
      modifies this
      ensures var step := EnsureStep(old(jsonData), discovery);
              && (step.Ok? ==> thrown.None? && jsonData == step.value)
              && (step.Err? ==> thrown == Some(step.error) && jsonData == old(jsonData))
      ensures sloCache == old(sloCache)
    {
      thrown := None;
      if jsonData.authenticationType == "gce" && jsonData.gceDefaultProject == "" {
        match discovery
        case Err(e) =>
          thrown := Some(e);
        case Ok(meta) =>
          jsonData := jsonData.(gceDefaultProject := DiscoveredProject(meta));
      }
    }

    /** `resourceCache`, given the backend: a stored path is answered without
        a request; otherwise `resource` is called with its default retry and
        the outcome goes through the cache step. `requests` is the number of
        requests made. */
    method ResourceCache(path: string, f: Mapper, server: Server) returns (list: seq<Props>, requests: nat)
      modifies this
      ensures var s := CacheStep(old(sloCache), path, ResourceOutcome(baseUrl + path, DefaultRetries, server, 0), f);
              list == s.list && sloCache == s.cache
      ensures requests == 0 <==> path in old(sloCache)
      ensures requests <= DefaultRetries + 1
      ensures jsonData == old(jsonData)
    {
      if path in sloCache {
        return sloCache[path], 0;
      }
      var fetched;
      fetched, requests := Resource(baseUrl, path, DefaultRetries, server);
      ResourceOutcomeIsLastAttempt(baseUrl + path, DefaultRetries, server, 0);
      list := [];
      if fetched.Ok? {
        var mapped := MapAll(Listed(fetched.value, path), f);
        if mapped.Some? {
          sloCache := sloCache[path := mapped.value];
          list := mapped.value;
        }
      }
    }

    /** `getMetricTypes`: nothing, and no request, for an empty project
        name; otherwise the cached descriptors of the substituted project. */
    method GetMetricTypes(projectName: string, server: Server) returns (list: seq<Props>, requests: nat)
      modifies this
      ensures projectName == "" ==> list == [] && requests == 0 && sloCache == old(sloCache)
      ensures projectName != "" ==>
                var path := replace(projectName, map[], Plain) + "/metricDescriptors";
                var s := CacheStep(old(sloCache), path, ResourceOutcome(baseUrl + path, DefaultRetries, server, 0), DescribeMetric);
                list == s.list && sloCache == s.cache
      ensures jsonData == old(jsonData)
    {
      if projectName == "" {
        return [], 0;
      }
      list, requests := ResourceCache(replace(projectName, map[], Plain) + "/metricDescriptors", DescribeMetric, server);
    }

    /** `getSLOServices`: the cached services of the substituted project. */
    method GetSloServices(projectName: string, server: Server) returns (list: seq<Props>, requests: nat)
      modifies this
      ensures var path := replace(projectName, map[], Plain) + "/services";
              var s := CacheStep(old(sloCache), path, ResourceOutcome(baseUrl + path, DefaultRetries, server, 0), ServiceOption);
              list == s.list && sloCache == s.cache
      ensures jsonData == old(jsonData)
    {
      list, requests := ResourceCache(replace(projectName, map[], Plain) + "/services", ServiceOption, server);
    }

    /** `getServiceLevelObjectives`: the cached objectives of a service; the
        project and service names are substituted only when non-empty. */
    method GetServiceLevelObjectives(projectName: string, serviceId: string, server: Server)
      returns (list: seq<Props>, requests: nat)
      modifies this
      ensures var p := if projectName != "" then replace(projectName, map[], Plain) else "";
              var s := if serviceId != "" then replace(serviceId, map[], Plain) else "";
              var path := p + "/services/" + s + "/serviceLevelObjectives";
              var step := CacheStep(old(sloCache), path, ResourceOutcome(baseUrl + path, DefaultRetries, server, 0), ServiceOption);
              list == step.list && sloCache == step.cache
      ensures jsonData == old(jsonData)
    {
      var names := InterpolateProps(map["projectName" := projectName, "serviceId" := serviceId], map[], replace);
      var p, s := names["projectName"], names["serviceId"];
      list, requests := ResourceCache(p + "/services/" + s + "/serviceLevelObjectives", ServiceOption, server);
    }

    /** `testDatasource`: lists the metric descriptors of the default
        project and reports the outcome; it changes nothing and never
        throws. */
    method TestDatasource(server: Server) returns (r: TestResult)
      ensures r == TestMessage(ResourceOutcome(baseUrl + (DefaultProject(jsonData) + "/metricDescriptors"), DefaultRetries, server, 0))
    {
      var outcome, _ := Resource(baseUrl, DefaultProject(jsonData) + "/metricDescriptors", DefaultRetries, server);
      r := TestMessage(outcome);
    }

    /** `getTimeSeries`, given what the discovery request and the query
        endpoint would yield: the settings are ensured first, then the
        queries are built (with `migrateQuery` bound) and posted. */
    method GetTimeSeries(targets: seq<StackdriverQuery>, vars: ScopedVars, intervalMs: int,
                         discovery: Result<Option<Props>, Thrown>, tsdb: Tsdb)
      returns (outcome: Result<TsdbResponse, Thrown>)
      modifies this
      ensures var step := EnsureStep(old(jsonData), discovery);
              && (step.Err? ==> outcome == Err(step.error) && jsonData == old(jsonData))
              && (step.Ok? ==>
                    jsonData == step.value
                    && outcome == TimeSeriesOutcome(step.value, id, targets, vars, intervalMs, replace, tsdb))
      ensures sloCache == old(sloCache)
    {
      var thrown := EnsureGceDefaultProject(discovery);
      if thrown.Some? {
        return Err(thrown.value);
      }
      var built := BuildQueries(targets, replace, DefaultProject(jsonData), id, vars, intervalMs);
      if built.Err? {
        return Err(built.error);
      }
      var queries := built.value;
      if |queries| > 0 {
        outcome := tsdb(queries);
      } else {
        outcome := Ok(TsdbResponse(Some([])));
      }
    }

    /** `query`: the answer of `getTimeSeries` reshaped into panel series,
        the panel unit resolved from the targets as given. */
    method Query(targets: seq<StackdriverQuery>, vars: ScopedVars, intervalMs: int,
                 discovery: Result<Option<Props>, Thrown>, tsdb: Tsdb)
      returns (outcome: Result<seq<TimeSerie>, Thrown>)
      modifies this
      ensures var step := EnsureStep(old(jsonData), discovery);
              var answer := if step.Ok? then TimeSeriesOutcome(step.value, id, targets, vars, intervalMs, replace, tsdb)
                            else Err(step.error);
              && (answer.Err? ==> outcome == Err(answer.error))
              && (answer.Ok? && answer.value.results.None? ==> outcome == Ok([]))
              && (answer.Ok? && answer.value.results.Some? ==>
                    outcome == Ok(Reshaped(answer.value.results.value,
                                           AttachedUnit(ResolvePanelUnitFromTargets(targets, unitMappings)))))
      ensures sloCache == old(sloCache)
    {
      var answer := GetTimeSeries(targets, vars, intervalMs, discovery, tsdb);
      if answer.Err? {
        return Err(answer.error);
      }
      var data := ReshapeResults(answer.value, targets, unitMappings);
      outcome := Ok(data);
    }
  }
}
