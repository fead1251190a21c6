# nri-conviva collection core in Dafny

This project models the core of the New Relic Conviva integration. One collection pass does four things:

- It turns each configured metric entry into one or more Conviva Insights API queries, one per dimension or a single flat one.
- It builds each query's URL from the collector's defaults and the entry's overrides. The URL carries a metric group or metric names, an optional `/group-by/<dimension>`, and a time range. It also carries granularity, filters and `metric=` parameters, and uses the real-time or historical endpoint.
- It walks every timestamped snapshot of every answer through the catalog of 73 metric adders. Each adder emits zero to two `conviva.`-prefixed count or gauge points on the entity, stamped with the snapshot's time and tagged with the dimension when there is one.
- It stops at the first error. That error comes from an unparsable offset, an end offset beyond the start offset, a failed fetch, or a point the telemetry SDK refuses.

## Modules

| module | file | models |
|---|---|---|
| `Wrappers` | `wrappers.dfy` | `Option` and `Result` |
| `Types` | `types.dfy` | the record shapes of `src/api/types.go` |
| `Errors` | `errors.dfy` | the failures a pass can meet |
| `Text` | `text.dfy` | `strings.Join`, splitting on a separator, and `%d` rendering of integers |
| `Query` | `query.dfy` | the query builder of `src/api/conviva.go` |
| `Catalog` | `catalog.dfy` | the converters, the hand-written adders, the `create*Func` constructors and the `initMetrics` catalog of `src/metrics.go` |
| `Sink` | `sink.dfy` | the SDK points and the entity they are added to |
| `Pipeline` | `pipeline.dfy` | `newMetric`, `newCountMetric`, `newGaugeMetric`, the adder closures, `addMetrics` and `addDimensionalMetrics` |
| `PipelineFacts` | `pipeline_facts.dfy` | what the catalog entries and the walks emit |
| `Collect` | `collect.dfy` | `applyDefaults`, `getMetricData`, `getMetricDataByDimension` and `getMetricsData` |

Some of the code works by changing state: `makeUrl` grows its parameter list, `initMetrics` appends to the global adder list, and the walks add points to the entity. These parts are methods with loops. They are proved against specification functions:

- `Query.UrlFor` specifies `makeUrl`.
- `Pipeline.Accepted` and `Pipeline.SinkError` over the catalog's point sequence specify the walks.
- `Collect.Outcome` over the sequence of query responses specifies the pass.

The straight-line conditionals are functions, such as `makePath`, `useRealTime`, `getDuration`, the converters and the dispatch.

## Model

| member | source | states |
|---|---|---|
| `Catalog.CatalogCoversEveryField` | src/metrics.go:281-700 | The catalog holds 73 entries, one per optional field of `Metrics`. Entry `i` makes no call exactly when the `i`-th field, in declaration order, is absent. |
| `Catalog.EntryCoversField` | src/metrics.go:281-700 | The `i`-th `initMetrics` entry reads the `i`-th optional field: it is silent exactly when that field is nil. |
| `Catalog.PercentageToGauge` | src/metrics.go:36-41 | Absent maps to absent. A present percentage maps to a gauge holding exactly its value. |
| `Catalog.BitrateToGauge` | src/metrics.go:43-48 | Absent maps to absent. A present bitrate maps to a gauge holding exactly its `bps`. |
| `Catalog.FramerateToGauge` | src/metrics.go:50-55 | Absent maps to absent. A present framerate maps to a gauge holding exactly its `fps`. |
| `Catalog.RatioToGauge` | src/metrics.go:57-62 | Absent maps to absent. A present ratio maps to a gauge holding exactly its `ratio`. |
| `Catalog.EmptySnapshotIsSilent` | src/metrics.go:183-278 | For a snapshot with every field absent, no adder of any shape makes a call. |
| `Catalog.Registry.constructor` | src/metrics.go:32-34 | The global adder list starts empty. |
| `Catalog.Registry.InitMetrics` | src/metrics.go:281-700 | Appends the whole catalog, in order, to whatever the list already holds, so a second call duplicates every entry. |
| `Sink.Entity.AddMetric` | src/metrics.go:140 | Appends the point and changes nothing else. |
| `Pipeline.Accepted` | src/metrics.go:702-716 | The SDK takes a prefix of the attempted points; every point taken is accepted; the first point not taken was refused. |
| `Pipeline.SinkError` | src/metrics.go:702-716 | There is no error exactly when every point is accepted. Otherwise the error names the first refused point. |
| `Pipeline.AcceptedConcat` | src/metrics.go:707-715 | The points taken from `a` then `b` are those taken from `a`, followed by those taken from `b` only when all of `a` was accepted. |
| `Pipeline.AcceptedAppend` | src/metrics.go:707-715 | Walking `a` then `b` continues into `b` only if all of `a` was accepted. Otherwise it ends where the walk over `a` alone ends. |
| `Pipeline.StopsAtRefusal` | src/metrics.go:707-715 | If the first refusal is at index `i`, exactly the points before `i` are added, and the error names point `i`. |
| `Pipeline.StopsInMiddle` | src/metrics.go:707-715 | After an accepted prefix, the outcome is decided by the middle block alone, and points after a refusal are never reached. |
| `Pipeline.FlattenAppend` | src/metrics.go:707-715 | The points of two runs of adders are the points of the first run followed by those of the second. |
| `Pipeline.FlattenSilent` | src/metrics.go:707-715 | Adders that each emit nothing emit nothing together. |
| `Pipeline.NewMetric` | src/metrics.go:128-143 | Attaches the dimension tag if and only if a dimension is supplied. A dimension the SDK refuses adds nothing and ends with an error naming the point. Otherwise the point is appended with no error. |
| `Pipeline.NewCountMetric` | src/metrics.go:145-162 | Appends one count point named `conviva.`+name, holding the count at the timestamp, or fails without adding anything. |
| `Pipeline.NewGaugeMetric` | src/metrics.go:164-181 | Appends one gauge point named `conviva.`+name, holding the value at the timestamp, or fails without adding anything. |
| `Pipeline.RunCalls` | src/metrics.go:227-256 | Makes the adder's `addCount`/`addGauge` calls in order. The entity gains the accepted prefix of their points, and the error is the first refusal. |
| `Pipeline.RunAdder` | src/metrics.go:183-278 | One catalog entry, of any of the four shapes, adds the accepted prefix of its points and reports the first refusal. |
| `Pipeline.ApplyAdders` | src/metrics.go:707-715 | The index loop over the adders adds the accepted prefix of all the adders' points, in catalog order, and stops at the first refusal. |
| `Pipeline.AddMetrics` | src/metrics.go:702-716 | Walks the whole catalog over a flat snapshot, stamped with its own `epoch_ms` and with no dimension. It adds exactly the accepted prefix and stops at the first refusal. |
| `Pipeline.AddDimensionalMetrics` | src/metrics.go:718-732 | Walks the whole catalog over one dimension's metrics, stamped with the given timestamp and tagged with that dimension. It adds exactly the accepted prefix and stops at the first refusal. |
| `PipelineFacts.StampedPoints` | src/metrics.go:145-181 | Every point built from a list of calls starts with `conviva.`, carries the given timestamp, and has a dimension tag exactly when a dimension is supplied. |
| `PipelineFacts.FlattenMembers` | src/metrics.go:707-715 | Every point of a catalog walk comes from one of the adders. |
| `PipelineFacts.CatalogPointsStamped` | src/metrics.go:128-181 | Every point any catalog walk attempts is prefixed, carries the walk's timestamp, and carries the walk's dimension tag if and only if a dimension is supplied. |
| `PipelineFacts.AcceptedAreAttempted` | src/metrics.go:707-715 | Only attempted points are ever added. |
| `PipelineFacts.FlatWalkPoints` | src/metrics.go:702-716 | Every point the flat walk adds is prefixed, stamped with the snapshot's own `epoch_ms`, and has no dimension. |
| `PipelineFacts.DimensionalWalkPoints` | src/metrics.go:718-732 | Every point the dimensional walk adds is prefixed, stamped with the element's timestamp, and tagged with that pair's own dimension key and value, never another's. |
| `PipelineFacts.EmptySnapshotAddsNothing` | src/metrics.go:702-732 | A snapshot with every field absent adds no points and raises no error, whether flat or dimensional. |
| `PipelineFacts.CountEntry` | src/metrics.go:183-203 | A count entry emits nothing when its field is absent. Otherwise it emits exactly one count point `conviva.<name>` with the count. |
| `PipelineFacts.GaugeEntry` | src/metrics.go:205-225 | A gauge entry emits nothing when its field is absent. Otherwise it emits exactly one gauge point `conviva.<name>` with the converted value. |
| `PipelineFacts.CountPercentageEntry` | src/metrics.go:258-278 | Emits a count at `conviva.<name>`, then a gauge at `conviva.<name>.percentage`. If the count is refused, the gauge is not attempted, and the error names the count. |
| `PipelineFacts.AbsentCountPercentageEntry` | src/metrics.go:258-278 | A count-and-percentage entry whose field is absent makes no call. |
| `PipelineFacts.EndedPlaysEntries` | src/metrics.go:64-110 | The ended-plays adders make no call when their field is absent. Otherwise they add exactly the count `conviva.<name>` holding the field's count, then the gauge `conviva.<name>.per_unique_device` holding its per-device average, with `<name>` `ad_ended_plays` or `ended_plays`. |
| `PipelineFacts.MinutesPlayedEntries` | src/metrics.go:80-126 | The minutes-played adders make no call when their field is absent. Otherwise they add exactly the count `conviva.<name>` holding the embedded ended plays' count, then the gauge `conviva.<name>.per_ended_play` holding the per-ended-play average, with `<name>` `ad_minutes_played` or `minutes_played`. The embedded per-device average is not emitted. |
| `Query.GetDuration` | src/api/conviva.go:283-295 | An empty override yields the default. A non-empty override succeeds exactly when it parses, and yields the parsed value. The error names the override. |
| `Query.NewConvivaCollector` | src/api/conviva.go:27-64 | Succeeds exactly when each non-empty offset parses. An empty offset becomes zero, and every other field is kept as given. The error names the first offset that fails to parse. |
| `Query.CollectorOffsetsResolve` | src/api/conviva.go:39-52 | The collector's offsets are the offsets resolved by `getDuration` against a zero default, with the same errors. |
| `Query.MakePath` | src/api/conviva.go:164-187 | The root is the group if non-empty. Otherwise it is `custom-selection` for several names, the single name for one, and `""` for none. A non-empty dimension appends `/group-by/<dimension>`. |
| `Query.UseRealTime` | src/api/conviva.go:189-207 | Real time holds exactly when neither override is explicitly false and the start offset is at most fifteen minutes. |
| `Query.Endpoint` | src/api/conviva.go:246-249 | The endpoint is `real-time-metrics` exactly when real time is chosen, and `metrics` otherwise. |
| `Query.EpochSecondsOrdered` | src/api/conviva.go:297-309 | With clock readings in order and end ≤ start, `start_epoch` ≤ `end_epoch`. |
| `Query.AddTimeRange` | src/api/conviva.go:297-309 | Keeps the existing parameters and appends `start_epoch=`, then `end_epoch=`. Each is (now − offset) in floor milliseconds, divided by 1000 with truncation, from its own clock reading. |
| `Query.AddGranularity` | src/api/conviva.go:311-319 | Keeps the existing parameters. It adds nothing exactly when both granularities are empty; otherwise it adds one `granularity=` parameter, and the request's value wins. |
| `Query.PairParams` | src/api/conviva.go:253-255 | One unescaped `key=value` parameter per value, in order. |
| `Query.MetricParams` | src/api/conviva.go:259-263 | No parameter for zero or one name. Otherwise one `metric=<name>` parameter per name, in order. |
| `Query.Assemble` | src/api/conviva.go:265-280 | The URL is `base/endpoint/path`, followed by `?` and the `&`-joined parameters exactly when there are any. |
| `Query.KeyOrder` | src/api/conviva.go:252 | Produces an order that visits every key of the filter map exactly once, as a Go `range` does. |
| `Query.AppendFilters` | src/api/conviva.go:251-257 | The nested loop appends exactly the filter parameters, key by key in the visiting order. |
| `Query.AppendMetrics` | src/api/conviva.go:259-263 | The loop appends exactly the `metric=` parameters. |
| `Query.ResolveWindow` | src/api/conviva.go:220-242 | Resolves both offsets with `getDuration` and checks the window. When it succeeds, the start is zero or the end is not beyond it. |
| `Query.UrlForWindow` | src/api/conviva.go:220-281 | For every filter order, an offset or window error is the URL builder's result. Otherwise the URL starts with `base/endpoint/path` for the endpoint the resolved start selects. |
| `Query.MakeUrl` | src/api/conviva.go:209-281 | For the filter order it took, the result is the URL or the error `UrlFor` specifies: offsets, window check, then time range, granularity, filters and metrics, in that order. Whatever the order, an offset or window error is returned as is, and otherwise the URL starts with `base/endpoint/path` for the endpoint the resolved start selects. |
| `Query.CollectMetrics` | src/api/conviva.go:116-138 | Queries the names' path with no dimension and passes the names on. An offset or window error is returned without fetching. |
| `Query.CollectMetricGroup` | src/api/conviva.go:140-162 | Queries the group's path with no dimension and no names, so no `metric=` parameter comes from metric names (a filter keyed `metric` still yields one). |
| `Query.CollectMetricsByDimension` | src/api/conviva.go:66-89 | Queries the names' path grouped by the dimension and passes the names on. |
| `Query.CollectMetricGroupByDimension` | src/api/conviva.go:91-114 | Queries the group's path grouped by the dimension, with no names. |
| `Query.UrlErrors` | src/api/conviva.go:220-242 | `makeUrl` fails exactly when an offset does not parse, or when a nonzero start has an end beyond it. It names the start before the end. |
| `Query.NoTimeRangeFromZeroStart` | src/api/conviva.go:230-242 | With a zero start there is no time range, whatever the end offset. |
| `Query.TimeRangeLeads` | src/api/conviva.go:230-244 | With a nonzero start, the parameters open with `start_epoch=` and then `end_epoch=`, in non-decreasing order. |
| `Query.QueryStringSplits` | src/api/conviva.go:274-280 | When no parameter holds `&`, the query string splits back on `&` into exactly the parameters. |
| `Query.FilterParamsOrderFree` | src/api/conviva.go:251-257 | Any two visiting orders of the filter map give the same multiset of filter parameters. |
| `Query.FilterParamsMembers` | src/api/conviva.go:251-257 | A parameter comes from the filters exactly when it is `key=value` for a visited key and one of its values. |
| `Query.FilterParamsCoverMap` | src/api/conviva.go:251-257 | Over a full visiting order, the filter parameters are exactly the `key=value` pairs of the map. |
| `Text.SplitJoin` | src/api/conviva.go:279 | Joining parts with a separator they do not contain, then splitting on it, gives back the parts. |
| `Text.NatToStringRoundTrip` | src/api/conviva.go:298-306 | A natural number's decimal digits read back as the number. |
| `Text.IntToStringRoundTrip` | src/api/conviva.go:298-306 | `%d` of an integer reads back as the integer. A leading `-` appears exactly for negatives. |
| `Collect.ApplyDefaults` | src/config.go:36-40 | An empty API URL becomes the default one. Otherwise the configuration is unchanged, and nothing else ever changes. |
| `Collect.Select` | src/metrics.go:797-841 | The group wins over the single metric, which wins over the names list. There is no selection exactly when all three are empty. |
| `Collect.GetMetricData` | src/metrics.go:792-842 | Dispatches on the selection to the matching `Collect*` call. With no selection it makes no query and returns no data and no error. With a selection, an offset or window error is returned as is. |
| `Collect.GetMetricDataByDimension` | src/metrics.go:844-901 | The same dispatch, grouped by the given dimension. |
| `Collect.RequestsFor` | src/metrics.go:755-787 | An entry without dimensions makes one flat query. Otherwise it makes one query per dimension, in order. |
| `Collect.RequestsAppend` | src/metrics.go:755 | The queries of two runs of entries are those of the first run followed by those of the second. |
| `Collect.RequestsOfEntries` | src/metrics.go:755-787 | A query belongs to the pass exactly when it belongs to one of the entries' fan-outs. |
| `Collect.FirstFetchError` | src/metrics.go:757-770 | There is no fetch error exactly when every query succeeded. |
| `Collect.FetchedAppend` | src/metrics.go:755-787 | After queries that all succeeded, the next queries decide the error, and their points follow. |
| `Collect.OutcomeAppend` | src/metrics.go:755-787 | A pass that has not stopped adds exactly what the next block of queries adds, and ends with that block's error. |
| `Collect.OutcomeSingle` | src/metrics.go:756-786 | A failed query adds nothing and reports its error. An answered query adds the accepted prefix of its points. |
| `Collect.ResponsesAppend` | src/metrics.go:755-787 | The responses of two runs of queries are those of the first run followed by those of the second. |
| `Collect.AddSeries` | src/metrics.go:761-763 | The loop over a flat series walks every snapshot in order. It adds the accepted prefix of their points and stops at the first refusal. |
| `Collect.ElementPointsStamped` | src/metrics.go:773-784 | Every point one dimensional series element attempts is prefixed, carries the element's timestamp, and comes from one of its pairs, tagged with that pair's dimension key and value. |
| `Collect.AddElement` | src/metrics.go:779-784 | The loop over one element's dimension pairs adds the accepted prefix of their points, each stamped with the element's time, and stops at the first refusal. |
| `Collect.AddDimSeries` | src/metrics.go:773-784 | The nested loop over a dimensional series adds the accepted prefix of all its points and stops at the first refusal. |
| `Collect.ResponseOutcome` | src/metrics.go:757-784 | A failed query ends the pass with its error. No selection adds nothing. An answer adds the accepted prefix of its points. |
| `Collect.ServeFlat` | src/metrics.go:756-766 | One flat query and the walk over its answer; the entity and the error are that query's outcome. |
| `Collect.ServeDimension` | src/metrics.go:769-785 | One query grouped by a dimension and the walk over its answer; the entity and the error are that query's outcome. |
| `Collect.ServeMetric` | src/metrics.go:755-787 | One entry's queries, each walked before the next. The entity and the error are the outcome of the queries made, and an entry cut short always carries an error. |
| `Collect.EntryQueries` | src/metrics.go:755 | The queries of entry `i` come right after those of the entries before it. |
| `Collect.NextMetricStep` | src/metrics.go:755-787 | A pass that has not stopped, followed by entry `i`'s queries, has the outcome of all those queries together. A complete entry advances the pass to the entries up to `i`. |
| `Collect.ServeNextMetric` | src/metrics.go:755-787 | One iteration of the outer loop keeps the pass's invariant, or ends it with the outcome so far. |
| `Collect.GetMetricsData` | src/metrics.go:734-790 | A bad collector offset ends the pass before any query, with nothing added. Otherwise the entity gains exactly the outcome of the queries made, in configuration and dimension order, and the pass stops at the first error. A pass cut short always carries an error. |

## Left out

- HTTP, basic authentication and JSON decoding (`makeRequest`, and `getMetricData`/`getMetricDataByDimension` in `src/api/conviva.go`) are outside the model. A query's answer is given by the function parameters `fetch` and `fetchDim`, from URL to decoded record or error.
- `time.Now()` is not modelled. Each URL reads the clock twice, and these readings are the parameters `nowStart` and `nowEnd`. `Collect.GetMetricsData` uses one such pair for every query of a pass, whereas the program reads the clock afresh for each query.
- `time.ParseDuration` is not modelled. It is the parameter `parse`, which gives `None` where Go returns an error.
- An int64 overflow of `now − offset` in `time.Now().Add(-offset)` is not modelled: the model computes that difference on unbounded integers.
- Float semantics are not modelled. Gauge values and `float64(count)` are reals that are only passed through.
- The SDK's `NewCount`, `NewGauge` and `AddDimension` are not modelled. Their refusals are the predicates in `Sink.Sdk`.
- Logging, the command line and version printing, and YAML and file loading are not modelled.
- `fatalIfErr` (`src/util.go`) is not modelled: a refused point exits the process there. The model ends the pass with that error, and the points added before it stay on the entity.
- `Pipeline.AddMetrics`, `Pipeline.AddDimensionalMetrics`, `Collect.GetMetricsData`: the global `metricAdders` list is a parameter `adders`. What `Catalog.Registry.InitMetrics` leaves after one call on an empty registry is `Catalog.MetricAdders`.
- `Query.MakeUrl`: the order of filter keys is a ghost out-parameter that is only known to be some order of the map's keys. Properties that hold for every order are stated as multisets and sets (`Query.FilterParamsOrderFree`, `Query.FilterParamsCoverMap`).
- Filter keys and values are put in the URL unescaped, as the program does. `Query.QueryStringSplits` therefore needs parameters without `&`.
- The `json:"exits_before_ad_start"` wire key of `AdExitBeforeVideoStarts` belongs to the decoder. It appears only as a comment on the field.
- `Total` is carried in both response types and never read. No walk function takes it.
