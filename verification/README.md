# Stackdriver data source: a Dafny model

This project models the query-shaping and caching core of Grafana's Stackdriver data source. That core is the class `StackdriverDatasource` in `public/app/plugins/datasource/stackdriver/datasource.ts`. It covers:

- how a panel target in the legacy shape is migrated to the `metricQuery` shape, and which targets are sent;
- how the time-series request is built: property, filter and group-by substitution, and the payload of each query;
- how the backend's answer is reshaped into panel series, with the panel unit when all targets agree on one;
- how listings of metric descriptors, services and service-level objectives are fetched with one retry and kept in a cache that is never invalidated;
- how the GCE default project is discovered lazily, and what `testDatasource` reports.

The template service (`templateSrv.replace`) is a function parameter of type `Replacer` that the model leaves uninterpreted. Every backend call is a parameter that gives what the call would yield:

- `Server` for `resource`, indexed by URL and attempt number;
- `Tsdb` for the `/api/tsdb/query` endpoint;
- a `Result` for the GCE project discovery.

A rejected promise is an `Err` carrying a `Thrown` value.

Modules:

- `Runtime` holds the JavaScript semantics the core relies on:
  - `String.prototype.split` with a one-character separator;
  - the "text before the first separator" idiom `const [x] = s.split(c)`;
  - the regular expression `([^/]*)/*$`, with leftmost-match and greedy-capture semantics, proved equal to "the text after the last slash once trailing slashes are stripped";
  - number-to-string conversion.
- `Template`: the replacer and its formats.
- `Normalizer`: `migrateQuery` and `shouldRunQuery`.
- `Builder`: `interpolateProps`, `interpolateFilters`, `interpolateGroupBys`, `prepareTimeSeriesQuery` and the chain inside `getTimeSeries`.
- `ResponseMapper`: `resolvePanelUnitFromTargets` and the series loop of `query`.
- `ResourceClient`: the `resource` retry loop and the message logic of `testDatasource`.
- `Datasource`: the settings, the cache transition, the mapping callbacks, and the class `StackdriverDatasource`. The class has the mutable fields `jsonData` and `sloCache`, and one method per asynchronous operation.

## Model

| member | source | states |
|---|---|---|
| `Runtime.Split` | public/app/plugins/datasource/stackdriver/datasource.ts:177 | `split` with a one-character separator returns at least one piece. No piece contains the separator, and joining the pieces with it gives back the input. |
| `Runtime.SplitJoin` | public/app/plugins/datasource/stackdriver/datasource.ts:177 | Splitting a join of separator-free pieces returns exactly those pieces. |
| `Runtime.TextBefore` | public/app/plugins/datasource/stackdriver/datasource.ts:399-400 | The first piece of a split is a prefix of the input that contains no separator. It is followed by the separator unless it is the whole input. |
| `Runtime.MatchStart` | public/app/plugins/datasource/stackdriver/datasource.ts:412 | The regular expression matches at the returned position (a run of non-slashes followed only by slashes up to the end). |
| `Runtime.LastSegment` | public/app/plugins/datasource/stackdriver/datasource.ts:436 | The capture of `([^/]*)/*$` contains no slash and is no longer than the name. |
| `Runtime.LastSegmentIsAfterLastSlash` | public/app/plugins/datasource/stackdriver/datasource.ts:436 | The capture of `([^/]*)/*$` is the text after the last slash once trailing slashes are stripped. |
| `Runtime.NumberToString` | public/app/plugins/datasource/stackdriver/datasource.ts:298 | Writing an error code as text yields a non-empty string, with at least one character after the sign of a negative number. |
| `Runtime.NaturalToStringIsDecimal` | public/app/plugins/datasource/stackdriver/datasource.ts:298 | A non-negative number is written as decimal digits with no leading zero except for 0 itself, and the digits read back as the number. |
| `Runtime.NumberToStringIsDecimal` | public/app/plugins/datasource/stackdriver/datasource.ts:298 | The text is a minus sign exactly for a negative number, followed by decimal digits with no leading zero except for 0 itself, and it reads back as the number. |
| `Normalizer.MigrateQuery` | public/app/plugins/datasource/stackdriver/datasource.ts:46-61 | A target with `metricQuery` is returned unchanged. A legacy target keeps `refId` and `hide` and becomes a metrics query. Its metric query holds its other properties, with `view` defaulting to FULL and `projectName` substituted, falling back to the default project. |
| `Normalizer.LegacyRest` | public/app/plugins/datasource/stackdriver/datasource.ts:48 | The rest of a legacy target holds every property except the destructured ones (hide, refId, datasource, key, queryType, maxLines, metric), with their values, plus its unit when it has one. |
| `Normalizer.MigrateQueryIdempotent` | public/app/plugins/datasource/stackdriver/datasource.ts:46-61 | Migrating twice is migrating once. |
| `Normalizer.ShouldRunQuery` | public/app/plugins/datasource/stackdriver/datasource.ts:72-85 | Hidden targets do not run. An SLO target runs iff selector, service, SLO and project are all non-empty; any other target runs iff its metric type and project are. Destructuring a missing sub-object throws a TypeError, and it is the only way the predicate throws. |
| `Normalizer.MigratedQueryDecides` | public/app/plugins/datasource/stackdriver/datasource.ts:46-85 | After migration, `shouldRunQuery` throws iff the target is a visible SLO target with `metricQuery` but no `sloQuery`. |
| `Normalizer.MigrateQueryUnbound` | public/app/plugins/datasource/stackdriver/datasource.ts:110 | `migrateQuery` called without a receiver returns a current-shape target unchanged and throws a TypeError on a legacy one. |
| `Builder.InterpolateProps` | public/app/plugins/datasource/stackdriver/datasource.ts:63-70 | The same properties come back. Non-empty values are substituted without a format, and empty ones are kept. |
| `Builder.InterpolatePropsIdentity` | public/app/plugins/datasource/stackdriver/datasource.ts:63-70 | With a template service that changes nothing, interpolation is the identity. |
| `Builder.Chunks` | public/app/plugins/datasource/stackdriver/datasource.ts:131 | `_.chunk(s, 4)` flattens back to `s`. Every chunk has one to four elements, and all but the last have four. |
| `Builder.InterpolateFilters` | public/app/plugins/datasource/stackdriver/datasource.ts:130-150 | The output is never longer than the input. Which strings it holds, chunk by chunk, is stated by the two lemmas below. |
| `Builder.RenderedNoLonger` | public/app/plugins/datasource/stackdriver/datasource.ts:130-150 | A chunk keeps its value only with at least three elements and its condition only with four, so rendering never gives back more strings than the chunks hold. |
| `Builder.InterpolateFiltersChunk` | public/app/plugins/datasource/stackdriver/datasource.ts:130-150 | A full chunk at the front contributes nothing if its raw value is empty. Otherwise it contributes the substituted key, the verbatim operator and the value substituted in regex format, plus the condition when it is non-empty. The rest of the list follows in order. |
| `Builder.InterpolateFiltersTail` | public/app/plugins/datasource/stackdriver/datasource.ts:130-150 | A trailing chunk shorter than four survives only when it has three elements and a non-empty value, and then without a condition. |
| `Builder.EmptyValueFilterDropped` | public/app/plugins/datasource/stackdriver/datasource.ts:138 | A filter whose value is empty is dropped, key, operator and condition included. |
| `Builder.GroupBysOf` | public/app/plugins/datasource/stackdriver/datasource.ts:174-185 | The output has at least as many entries as the input, and no entry contains a comma. |
| `Builder.GroupBysOfOne` | public/app/plugins/datasource/stackdriver/datasource.ts:177 | One group-by contributes exactly the comma-split of its csv-format substitution, which has at least one entry. |
| `Builder.GroupBysOfAppend` | public/app/plugins/datasource/stackdriver/datasource.ts:174-185 | The group-bys of two runs of inputs are those of the first run followed by those of the second, so each input contributes its own split in place. |
| `Builder.InterpolateGroupBys` | public/app/plugins/datasource/stackdriver/datasource.ts:174-185 | The accumulator loop computes the in-order concatenation of the comma-splits of the csv-format substitutions. |
| `Builder.GroupBysAreSplitOfJoined` | public/app/plugins/datasource/stackdriver/datasource.ts:174-185 | The group-bys are the comma-split of all substitutions joined with commas, and joining them with commas gives that string back. |
| `Builder.GroupBysWithoutCommas` | public/app/plugins/datasource/stackdriver/datasource.ts:174-185 | When no substitution contains a comma, each group-by yields exactly its substitution, in the same position. |
| `Builder.CommaValueExpands` | public/app/plugins/datasource/stackdriver/datasource.ts:177 | A group-by whose substitution is `a,b,c` yields three group-bys. |
| `Builder.PrepareTimeSeriesQuery` | public/app/plugins/datasource/stackdriver/datasource.ts:87-105 | The payload carries the data source id, refId, query type and interval. Its type is always `timeSeriesQuery`. Metric properties other than `view` are substituted, while `view` is the raw one or FULL. Filters and group-bys are interpolated, and the SLO properties (none when missing) are substituted. |
| `Builder.MigrateAll` | public/app/plugins/datasource/stackdriver/datasource.ts:110 | Every target is migrated, in order. |
| `Builder.FilterRunnable` | public/app/plugins/datasource/stackdriver/datasource.ts:111 | The filter succeeds iff the predicate throws on no target, and then keeps a sub-list of the targets. Otherwise it throws the predicate's TypeError. |
| `Builder.FilterRunnableMembers` | public/app/plugins/datasource/stackdriver/datasource.ts:111 | The kept targets are exactly those the predicate accepts. |
| `Builder.FilterRunnableOne` | public/app/plugins/datasource/stackdriver/datasource.ts:111 | On one target the filter throws iff the predicate does, and otherwise keeps the target iff the predicate says it should run. |
| `Builder.FilterRunnableAppend` | public/app/plugins/datasource/stackdriver/datasource.ts:111 | On a concatenation the filter throws iff it throws on either part, and otherwise keeps the first part's survivors followed by the second part's, so order and repetitions are kept. |
| `Builder.FilterRunnableHidden` | public/app/plugins/datasource/stackdriver/datasource.ts:72-75 | Hidden targets are all filtered out, and they never make the filter throw. |
| `Builder.PrepareAll` | public/app/plugins/datasource/stackdriver/datasource.ts:112 | Every running target is prepared, in order. |
| `Builder.MigrateAllAppend` | public/app/plugins/datasource/stackdriver/datasource.ts:110 | Migrating a concatenation migrates each part in turn. |
| `Builder.PrepareAllAppend` | public/app/plugins/datasource/stackdriver/datasource.ts:112 | Preparing a concatenation prepares each part in turn. |
| `Builder.BuildQueries` | public/app/plugins/datasource/stackdriver/datasource.ts:107-112 | With `migrateQuery` bound, the sent queries are at most one per target. Each has type `timeSeriesQuery` and a non-empty view. Failure is always a TypeError. |
| `Builder.BuildQueriesSucceeds` | public/app/plugins/datasource/stackdriver/datasource.ts:107-112 | Building fails iff some target is a visible SLO target with `metricQuery` but no `sloQuery`. |
| `Builder.BuildQueriesOne` | public/app/plugins/datasource/stackdriver/datasource.ts:107-112 | For one target, building throws iff `shouldRunQuery` throws on its migration. Otherwise it yields the prepared migrated target when it should run and nothing when it should not. |
| `Builder.BuildQueriesAppend` | public/app/plugins/datasource/stackdriver/datasource.ts:107-112 | Building for a concatenation throws iff building throws for either part, and otherwise yields the first part's queries followed by the second part's. With the previous row this fixes the sent queries: the prepared migrated targets that should run, in target order. |
| `Builder.HiddenTargetsBuildNothing` | public/app/plugins/datasource/stackdriver/datasource.ts:107-112 | When every target is hidden, no query is built and nothing throws. |
| `Builder.MigrateAllUnbound` | public/app/plugins/datasource/stackdriver/datasource.ts:110 | As written, migration succeeds iff no target has the legacy shape, and then changes nothing. |
| `Builder.BuildQueriesAsWritten` | public/app/plugins/datasource/stackdriver/datasource.ts:107-112 | As written, any legacy target makes the request building throw a TypeError. |
| `Builder.AsWrittenAgreesWithoutLegacy` | public/app/plugins/datasource/stackdriver/datasource.ts:107-112 | When every target has `metricQuery`, the chain as written builds exactly the queries of the bound chain. |
| `Builder.LegacyTargetRejectedAsWritten` | public/app/plugins/datasource/stackdriver/datasource.ts:110 | For one visible legacy target with a metric type and a project, the chain as written throws, while the bound chain builds exactly one query for it. |
| `ResponseMapper.EveryUnit` | public/app/plugins/datasource/stackdriver/datasource.ts:189 | `every` holds iff every target has the given unit. |
| `ResponseMapper.ResolvePanelUnitFromTargets` | public/app/plugins/datasource/stackdriver/datasource.ts:187-196 | A unit is returned iff there are targets, they all share the first target's unit, and the mapping table has that unit (a missing one looked up as "undefined"). That unit is then the table's entry. |
| `ResponseMapper.ResolvePanelUnitAppend` | public/app/plugins/datasource/stackdriver/datasource.ts:187-196 | Adding a target with the same unit changes nothing. A target with a different unit removes the panel unit. |
| `ResponseMapper.NoUnitLooksUpUndefined` | public/app/plugins/datasource/stackdriver/datasource.ts:190 | Targets without a unit resolve to the table's entry for "undefined", if it has one. |
| `ResponseMapper.AttachedUnit` | public/app/plugins/datasource/stackdriver/datasource.ts:214-216 | The unit is attached iff it was resolved and is non-empty. |
| `ResponseMapper.ReshapeResults` | public/app/plugins/datasource/stackdriver/datasource.ts:198-224 | Without `results` the output is empty. Otherwise the nested loop pushes, result after result, one series per input series, skipping results without `series`. |
| `ResponseMapper.Reshaped` | public/app/plugins/datasource/stackdriver/datasource.ts:201-219 | What the series loop pushes, result after result. Its properties are stated by the four lemmas below. |
| `ResponseMapper.ReshapedSnoc` | public/app/plugins/datasource/stackdriver/datasource.ts:201-219 | The series of the last result come last. |
| `ResponseMapper.ReshapedAppend` | public/app/plugins/datasource/stackdriver/datasource.ts:201-219 | Reshaping two runs of results is reshaping each in turn. |
| `ResponseMapper.ReshapedCount` | public/app/plugins/datasource/stackdriver/datasource.ts:201-219 | There is exactly one output per input series, and every output carries the same attached unit. |
| `ResponseMapper.ReshapedPosition` | public/app/plugins/datasource/stackdriver/datasource.ts:207-217 | Series k of result j lands after all earlier results' series. It carries that series' name as target and its points as datapoints, plus the result's refId and meta. |
| `ResourceClient.ResourceOutcome` | public/app/plugins/datasource/stackdriver/datasource.ts:445-458 | The outcome is the first request's when that one is answered or no retry is left. It is always the reply to one of the n+1 allowed requests, and a rejection means all of them were rejected. |
| `ResourceClient.ResourceAttempts` | public/app/plugins/datasource/stackdriver/datasource.ts:445-458 | At least one request is made. |
| `ResourceClient.ResourceOutcomeIsLastAttempt` | public/app/plugins/datasource/stackdriver/datasource.ts:445-458 | `resource(path, n)` makes between 1 and n+1 requests, and every request but the last was rejected. The outcome is the last request's. A rejection is passed on only after all n+1 requests failed. |
| `ResourceClient.ResourceFirstReply` | public/app/plugins/datasource/stackdriver/datasource.ts:445-458 | If any allowed request is answered, `resource` resolves with the first answer. |
| `ResourceClient.Resource` | public/app/plugins/datasource/stackdriver/datasource.ts:445-458 | The retry loop that counts down the retries yields the recursive definition's outcome and number of requests. |
| `ResourceClient.ErrorDetail` | public/app/plugins/datasource/stackdriver/datasource.ts:297-299 | The code part of an error message is empty iff there is no error body or its code is 0. |
| `ResourceClient.TestMessage` | public/app/plugins/datasource/stackdriver/datasource.ts:278-307 | The status is success iff the reply has status 200, and error otherwise. A non-200 reply reports its status text or the default message. A string rejection is the message itself. Any other rejection starts with "Stackdriver: " and its status text or the default, followed by the code part of its body. |
| `ResourceClient.TestSucceedsIffFirstAnswerIs200` | public/app/plugins/datasource/stackdriver/datasource.ts:278-307 | With one retry, the test reports success iff the first answered request of the two has status 200. |
| `ResourceClient.NotFoundMessage` | public/app/plugins/datasource/stackdriver/datasource.ts:295-299 | An error without status text, with code 404 and no message, reads "Stackdriver: Cannot connect to Stackdriver API: 404. undefined". |
| `Datasource.DefaultProject` | public/app/plugins/datasource/stackdriver/datasource.ts:378-385 | Under GCE authentication the default project is empty iff it has not been discovered yet. Otherwise it is the configured project. |
| `Datasource.EnsureStep` | public/app/plugins/datasource/stackdriver/datasource.ts:387-392 | Settings that need no GCE project are kept without a request. A failed discovery is passed on. The authentication type and configured project never change. |
| `Datasource.EnsureStepSettles` | public/app/plugins/datasource/stackdriver/datasource.ts:378-392 | A non-empty discovered project becomes the default project, and later calls keep the settings whatever their request would yield. |
| `Datasource.EnsureStepEmptyDiscovery` | public/app/plugins/datasource/stackdriver/datasource.ts:378-392 | An empty discovered project leaves the settings as they were, with an empty default project. The next call asks again and settles as the first one would have. |
| `Datasource.MapAll` | public/app/plugins/datasource/stackdriver/datasource.ts:436 | `map(mapFunc)` succeeds iff the callback succeeds on every item, and then yields its results in order. |
| `Datasource.DescribeMetric` | public/app/plugins/datasource/stackdriver/datasource.ts:398-406 | The callback throws iff the descriptor has no type. Otherwise it adds service (the type up to its first slash), serviceShortName (the service up to its first dot) and displayName (the display name, defaulting to the type), and keeps every other property. |
| `Datasource.DescribeQualifiedMetric` | public/app/plugins/datasource/stackdriver/datasource.ts:398-406 | For a type `x.y/z`, the service is `x.y` and its short name `x`. The display name defaults to the type. |
| `Datasource.ServiceOption` | public/app/plugins/datasource/stackdriver/datasource.ts:411-414 | The callback throws iff there is no name. Otherwise value and label are equal. |
| `Datasource.ServiceOptionByLastName` | public/app/plugins/datasource/stackdriver/datasource.ts:411-414 | Value and label are the text after the last slash of the name once trailing slashes are stripped. |
| `Datasource.ServiceOptionOfName` | public/app/plugins/datasource/stackdriver/datasource.ts:420-423 | A name `p/s` with a non-empty slash-free `s` lists as `s`. |
| `Datasource.ListedByLastName` | public/app/plugins/datasource/stackdriver/datasource.ts:436 | The list read from a reply is the property named by the text after the path's last slash once trailing slashes are stripped, or nothing when it is missing. |
| `Datasource.CacheStep` | public/app/plugins/datasource/stackdriver/datasource.ts:426-443 | A stored path is answered from the cache, even with an empty list. A call adds at most its own path, changes no stored entry, and returns what it stored or an empty list. |
| `Datasource.CacheStepStores` | public/app/plugins/datasource/stackdriver/datasource.ts:435-438 | On success the mapped list under the path's last segment is stored and returned, and the next call for the path is a hit. |
| `Datasource.CacheStepFailure` | public/app/plugins/datasource/stackdriver/datasource.ts:439-442 | A failed request or a throwing callback returns an empty list and leaves the cache unchanged. |
| `Datasource.CacheRunKeepsEntries` | public/app/plugins/datasource/stackdriver/datasource.ts:426-443 | Over any sequence of calls, no stored entry is removed or changed. |
| `Datasource.TimeSeriesOutcome` | public/app/plugins/datasource/stackdriver/datasource.ts:114-127 | A build failure is a TypeError rejection. With no queries to send (in particular when every target is hidden) no request is posted and the answer has empty results. Otherwise the answer is the endpoint's for the built queries. |
| `Datasource.StackdriverDatasource.constructor` | public/app/plugins/datasource/stackdriver/datasource.ts:29-40 | The base URL is the proxy URL plus `/stackdriver/v3/projects/`. The authentication type defaults to jwt, and the cache starts empty. |
| `Datasource.StackdriverDatasource.EnsureGceDefaultProject` | public/app/plugins/datasource/stackdriver/datasource.ts:387-392 | The settings become the result of the ensure step, and stay unchanged when discovery fails. The cache is untouched. |
| `Datasource.StackdriverDatasource.ResourceCache` | public/app/plugins/datasource/stackdriver/datasource.ts:426-443 | The returned list and the new cache are those of the cache step on the outcome of `resource` with one retry. A hit makes no request, and a miss makes one or two. |
| `Datasource.StackdriverDatasource.GetMetricTypes` | public/app/plugins/datasource/stackdriver/datasource.ts:394-407 | An empty project name gives an empty list with no request and no cache change. Otherwise it is the cache step for the substituted project's `metricDescriptors` with the descriptor callback. |
| `Datasource.StackdriverDatasource.GetSloServices` | public/app/plugins/datasource/stackdriver/datasource.ts:409-415 | The cache step for the substituted project's `services`, with value and label set to the last segment of the name. |
| `Datasource.StackdriverDatasource.GetServiceLevelObjectives` | public/app/plugins/datasource/stackdriver/datasource.ts:417-424 | The cache step for `p/services/s/serviceLevelObjectives`, where project and service are substituted only when non-empty. |
| `Datasource.StackdriverDatasource.TestDatasource` | public/app/plugins/datasource/stackdriver/datasource.ts:278-307 | The report is the test message for the outcome of listing the default project's metric descriptors with one retry. Nothing changes and nothing is thrown. |
| `Datasource.StackdriverDatasource.GetTimeSeries` | public/app/plugins/datasource/stackdriver/datasource.ts:107-128 | The settings are ensured first, and a failure there is thrown with the settings kept. Otherwise the built queries are posted when there are any; with none, the answer is empty results and no request is made. |
| `Datasource.StackdriverDatasource.Query` | public/app/plugins/datasource/stackdriver/datasource.ts:198-224 | A rejection of `getTimeSeries` is passed on. An answer without results gives no series. Otherwise the output is the reshaped results with the unit resolved from the targets as given. |

## Left out

- `annotationQuery` is not modelled. Its row mapping depends on `Date.parse` and on an untyped table shape.
- `formatStackdriverError` and `getProjects` are not modelled. They parse JSON and log to the console. The error notification `resourceCache` emits on failure (`appEvents.emit`) is an external side effect; only the empty result and the unchanged cache are modelled.
- `getLabels`, the `variables` getter and `metricFindQuery` are not modelled. They only forward to other operations or to `StackdriverMetricFindQuery`, which is not part of this model.
- The HTTP layer and the asynchronous plumbing are not modelled. Each request is a parameter that gives what the request would yield, so concurrent calls for the same path are not modelled either.
- The backend's `results` object is modelled as a sequence in the order `Object.values` visits it. Its keys (the refIds) are not modelled separately, because each result carries its own `refId`.
- The `from` and `to` of the time range are not modelled. `getTimeSeries` passes them to the endpoint without looking at them.
- The contents of `stackdriverUnitMappings` are not modelled. The table lives in a constants file that is not part of this model, so it is a parameter of the class.
- The unused fields `metricTypesCache` and `sloServicesCache` are not modelled.
- Only string-valued properties are modelled; both absence and the empty string stand for a falsy value.
  - Two things follow from this. `interpolateProps` also passes non-string values through unchanged, and `hasOwnProperty` distinguishes a property set to `undefined` from a missing one. Neither is modelled.
  - For the same reason a legacy target's own `sloQuery` is not carried into its migrated metric query.
- The class keeps its own copy of the settings in `jsonData`. The source writes the discovered project into the shared `instanceSettings.jsonData` object (line 390), and other holders of that object would see the change; that aliasing is not modelled.
- `templateSrv.replace` called without scoped variables (lines 56, 398, 410) is modelled as the replacer applied to the empty map of variables.
- A reply body that is null or undefined cannot be represented. In `resourceCache` (line 436) reading a property of it throws, and the catch turns that into an empty list with nothing cached; in `query` reading `data.results` would reject.
- A rejection that is null or undefined cannot be represented. `testDatasource` would throw inside its catch at line 296, and its `finally` would report the message "Stackdriver: ".
- `Datasource.DiscoveredProject` does not model the shape checks of `getGCEDefaultProject` (lines 324-328). It takes the `meta` object directly.
- `Datasource.EnsureStep` passes a discovery rejection on unchanged, rather than the `data.error` property of it that `getGCEDefaultProject` rethrows.
- `Datasource.StackdriverDatasource.GetTimeSeries` builds the queries with `migrateQuery` bound, as the Findings below explain. The chain as written is modelled separately, by `Builder.BuildQueriesAsWritten`.

## Findings

| source | as written | input that shows it | evidently intended | confidence | as-written member | corrected member |
|---|---|---|---|---|---|---|
| public/app/plugins/datasource/stackdriver/datasource.ts:110 | `.map(this.migrateQuery)` passes the method without its receiver. On a target without `metricQuery` the legacy branch then reads `this.templateSrv` with `this` undefined and throws a TypeError, so `getTimeSeries` rejects. | One visible legacy target (no `metricQuery`) with a non-empty `metricType` whose project resolves to a non-empty name | Migrate the legacy target with the data source as receiver and send it | not executed; derived from the class-method semantics of the language | `Builder.BuildQueriesAsWritten` (shown by `Builder.LegacyTargetRejectedAsWritten`) | `Builder.BuildQueries` |
