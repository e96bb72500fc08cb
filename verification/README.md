# opencensus-testing query builders and importer registry, in Dafny

This project models the read path of an OpenCensus "importer" library. An
importer fetches the latest value of a view (a named metric with ordered
label names) from a monitoring backend. The model covers five pieces:

- the Stackdriver (Cloud Monitoring) filter accumulator `Filter`, a string
  that grows clause by clause (`stackdriver_filter.dfy`);
- the Datadog query `metric{tag:value,...}` (`datadog_query.dfy`);
- the importer registry, the view list and the resolution loop that asks
  every registered importer for a view's value (`stats_view.dfy`);
- the pure parts of the Datadog importer: the metric name, the tags, the
  one-minute window and the choice of point (`datadog_importer.dfy`);
- the older Stackdriver string helpers of the `package main` program in
  `stackdriver/stackdriver.go` (`stackdriver_legacy.dfy`).

`strings.dfy` holds Go's `strings.Join` and `strings.Contains` and the lemmas
about them. `gotime.dfy` holds Go's `time.Time`, reduced to nanoseconds
since the epoch with `Unix()`. `wrappers.dfy` holds `Option`.

Go ranges over a map in an unspecified order. Every method whose result
depends on that order returns it as a ghost `order` sequence, with
`IsEnumeration(order, m.Keys)`, and its result is stated as a function of
that order. The lemmas then prove what holds whatever the order is.

The `glog.Fatal` exits and the index-out-of-range panic in the Datadog
label loop are modelled as preconditions. The `log.Fatal` on a failing
Datadog backend call is left out (see below).

Where the code and its own tests and comments disagree, the model
follows the code:

- `Filter.AddLabels` writes the label key in quotes:
  `metric.label."key1"="value1"` (stackdriver/filter.go:59). The tests
  look for `metric.label.key1="value1"` without the quotes
  (stackdriver/stackdriver_test.go:74 and :126). `LabelClauseText` and
  `MultiPartFilter` state the code's output.
- `AddLabels` with an empty map leaves an empty filter empty. On a
  non-empty filter it appends a trailing space, because `add("")` still
  inserts the spacer (`NoLabels`). It does not leave such a filter
  unchanged.
- The package `stats/view` declares `importers` twice: as a slice in
  view.go and as a map in importer.go. The model keeps importer.go's map
  registry and view.go's resolution loop. The slice semantics (a later
  importer with the same name overwrites an earlier entry) are kept as the
  function `Collect` and its lemmas.
- `View.Value` does not check that the number of label values matches the
  label names. It passes them through unchanged. An importer's error is
  dropped, and the value it returned is stored anyway.
- `Register` appends views with no empty-name or duplicate check. It always
  returns nil.

## Model

| member | source | states |
|---|---|---|
| `StackdriverFilter.Filter.constructor` | stackdriver/filter.go:13-16 | `NewFilter` is the empty string and `Empty()` holds |
| `StackdriverFilter.Filter.Add` | stackdriver/filter.go:18-25 | the new string is `old + " " + s` on a non-empty filter and `s` on an empty one; the filter is empty afterwards exactly when it was empty and `s` is empty |
| `StackdriverFilter.Filter.AddResourceType` | stackdriver/filter.go:27-36 | fatal (precondition) when the string already contains `resource.type` anywhere; otherwise adds `resource.type="t"`, after which the string contains `resource.type` |
| `StackdriverFilter.Filter.AddMetricType` | stackdriver/filter.go:38-49 | fatal when the string already contains `metric.type`; otherwise adds `metric.type="custom.googleapis.com/opencensus/t"` |
| `StackdriverFilter.Filter.AddLabels` | stackdriver/filter.go:51-63 | visits every key of the map exactly once, in some order, and adds the space-joined `metric.label."k"="v"` clauses in that order |
| `StackdriverFilter.LabelClauses` | stackdriver/filter.go:57-61 | one clause per visited key, at the same position, built from that key and its value |
| `StackdriverFilter.AddedEmpty` | stackdriver/filter.go:19-25 | after `add` the filter is empty exactly when both the filter and the added text were empty |
| `StackdriverFilter.AddedExtends` | stackdriver/filter.go:19-25 | `add` keeps the old filter as a prefix and puts the added text at the end |
| `StackdriverFilter.ResourceTypeRecorded` | stackdriver/filter.go:32-35 | after adding a resource-type clause the filter contains `resource.type` |
| `StackdriverFilter.MetricTypeRecorded` | stackdriver/filter.go:44-47 | after adding a metric-type clause the filter contains `metric.type` |
| `StackdriverFilter.ResourceTypeOnlyOnce` | stackdriver/filter.go:28-36 | whatever is added after a resource-type clause, the filter still contains `resource.type`, so a second `AddResourceType` is fatal |
| `StackdriverFilter.MetricTypeOnlyOnce` | stackdriver/filter.go:39-49 | likewise a second `AddMetricType` is fatal |
| `StackdriverFilter.AddAllKeepsContains` | stackdriver/filter.go:19-25 | adding text never removes an occurrence of a substring |
| `StackdriverFilter.AddedContainsClause` | stackdriver/filter.go:19-25 | after `add` of a text that starts with a key, the filter contains that key |
| `StackdriverFilter.AddAllAfter` | stackdriver/filter.go:19-25 | adding texts to a non-empty filter appends a space and the texts joined by single spaces |
| `StackdriverFilter.AddAllIsJoin` | stackdriver/filter.go:19-25 | a filter built from empty, whose first added text is non-empty, is exactly the added texts joined by single spaces |
| `StackdriverFilter.LabelsAllPresent` | stackdriver/filter.go:53-63 | after `AddLabels(m)`, whatever the order, the filter contains the clause of every entry of `m` |
| `StackdriverFilter.LabelValueBlocksMetricType` | stackdriver/filter.go:44-46 | because the duplicate check is a substring search, a label value containing `metric.type` makes a later `AddMetricType` fatal |
| `StackdriverFilter.NoLabels` | stackdriver/filter.go:57-62 | `AddLabels` of an empty map leaves `""` as `""` and gives a non-empty filter a trailing space |
| `StackdriverFilter.MultiPartFilter` | stackdriver/stackdriver_test.go:118-129 | resource type R, metric type M and labels key1, key2 (visited in that order) give the four clauses separated by single spaces |
| `StackdriverFilter.ResourceTypeClauseText` | stackdriver/stackdriver_test.go:38-44 | for every `t`, `AddResourceType(t)` on the empty filter gives `resource.type="t"`, character for character (the test's `X` is one instance) |
| `StackdriverFilter.MetricTypeClauseText` | stackdriver/stackdriver_test.go:45-51 | for every `t`, `AddMetricType(t)` on the empty filter gives `metric.type="custom.googleapis.com/opencensus/t"`, character for character |
| `StackdriverFilter.ResourceClauseAdmitsMetricType` | stackdriver/filter.go:44-47 | a resource-type clause whose type has no letter m does not contain `metric.type`, so the metric-type duplicate check lets the next `AddMetricType` through |
| `StackdriverFilter.EmptyContainsNoKey` | stackdriver/filter.go:32 | the empty filter contains no non-empty key, so the first `AddResourceType` on a new filter is never fatal |
| `StackdriverFilter.BuildFilter` | stackdriver/stackdriver_test.go:118-129 | the test's build sequence (new filter, resource type, metric type, labels) meets every fatal-exit precondition when the resource type has no letter m, and leaves the three texts added in turn |
| `StackdriverFilter.Filter.Empty` | stackdriver/filter.go:65-68 | the filter is empty exactly when its string has length 0 |
| `StackdriverFilter.Filter.String` | stackdriver/filter.go:70-73 | the filter's text itself |
| `StackdriverFilter.LabelClauseText` | stackdriver/filter.go:59 | the code's label clause quotes the key: `metric.label."key1"="value1"` |
| `DatadogQuery.WithTag` | datadog/query.go:21-25 | a tag with empty name or value changes nothing; otherwise the tag is set to the value, overwriting, and every other tag is unchanged |
| `DatadogQuery.Query.constructor` | datadog/query.go:10-16 | `NewQuery(m)` holds metric `m` and no tags |
| `DatadogQuery.Query.AddHostname` | datadog/query.go:17-20 | the same as `AddTagValue("host", h)`, so an empty host adds nothing; the metric is unchanged and no tag is ever empty |
| `DatadogQuery.Query.AddTagValue` | datadog/query.go:21-25 | the tags become `WithTag(old tags, tag, value)`; the metric is unchanged and no tag name or value is ever empty |
| `DatadogQuery.Query.TagString` | datadog/query.go:26-38 | visits every tag exactly once and renders `""` exactly when there are no tags, otherwise `{` + the `k:v` entries comma-joined in the visiting order + `}` |
| `DatadogQuery.Query.String` | datadog/query.go:39-41 | the metric followed by the tag string, so the bare metric exactly when there are no tags |
| `DatadogQuery.Entries` | datadog/query.go:32-35 | one `k:v` entry per visited tag, at the same position |
| `DatadogQuery.NoTagsBareMetric` | datadog/query.go:27-30 | with no tags the query is the bare metric, not `metric{}` |
| `DatadogQuery.TagTextHasEveryTag` | datadog/query.go:32-37 | whatever the order, the tag string contains `k:v` for every tag |
| `DatadogQuery.TagTextCommas` | datadog/query.go:37 | with n tags whose names and values hold no comma, the tag string holds exactly n - 1 commas |
| `DatadogQuery.TagTextSingle` | datadog/query_test.go:28-34 | a single tag renders as exactly `{k:v}` |
| `DatadogQuery.WithTagKeepsNoEmptyTags` | datadog/query.go:22 | adding a tag never stores an empty name or value |
| `StatsView.Registry.constructor` | stats/view/importer.go:9-11 | the importer registry and the view list start empty |
| `StatsView.Registry.RegisterImporter` | stats/view/importer.go:19-26 | fatal for an empty name; otherwise stores the importer under its name, replacing a same-name entry, with every other entry and the views unchanged |
| `StatsView.Registry.UnregisterImporter` | stats/view/importer.go:28-32 | removes the key of the importer's name and changes nothing else; an absent name is a no-op |
| `StatsView.Registry.Register` | stats/view/view.go:27-31 | appends the views in argument order, with no check, and returns nil |
| `StatsView.Registry.Value` | stats/view/view.go:38-52 | the result has exactly the registered importers' names as keys; each entry is the value its importer returned for the same view, label values and instant, error or not |
| `StatsView.RegisterUnregisterRestores` | stats/view/importer_test.go:44-58 | registering then unregistering a previously absent name restores the registry |
| `StatsView.UnregisterIdempotent` | stats/view/importer.go:29-32 | unregistering twice is the same as once |
| `StatsView.RegistryStaysWellKeyed` | stats/view/importer.go:20-26 | registration with a non-empty name and unregistration keep every key equal to its importer's name and never store `""` |
| `StatsView.NoImportersNoValues` | stats/view/view.go:39-52 | with no importers the result is the empty map |
| `StatsView.Collect` | stats/view/view.go:43-50 | the loop over the slice registry: each importer's value stored under its name, in list order |
| `StatsView.CollectKeys` | stats/view/view.go:43-50 | over the slice registry the result's keys are exactly the importers' names |
| `StatsView.CollectLastWins` | stats/view/view.go:43-50 | over the slice registry a later importer of the same name overwrites an earlier one's entry |
| `DatadogImporter.NewImporter` | datadog/datadog.go:22-33 | never fails, keeps the options, and `Name()` is `"datadog"` |
| `DatadogImporter.Value` | datadog/datadog.go:40-88 | queries the backend over `[Unix(t) - 60, Unix(t)]` with the derived metric name and the tags rendered in some order; reports the picked point; the error is always nil |
| `DatadogImporter.Name` | datadog/datadog.go:30-33 | the importer's stored name |
| `DatadogImporter.MetricName` | datadog/datadog.go:46-58 | the name computed by the closure: `namespace.` prefixed when the namespace is non-empty, then `_` and the label names joined by `_` when there are label names |
| `DatadogImporter.QueryTags` | datadog/datadog.go:60-65 | the tag map after `AddHostname(host)` and then `AddTagValue(names[i], values[i])` for each label in order |
| `DatadogImporter.PickPoint` | datadog/datadog.go:73-87 | the data of the first point of the first series, or 0.0 when there is none |
| `DatadogImporter.MetricNameShape` | datadog/datadog.go:46-58 | the metric name is `namespace.` (when non-empty) then the view name and label names joined by `_` |
| `DatadogImporter.MetricNameRecoversLabels` | datadog/datadog.go:53-56 | when no name contains `_`, splitting the metric name at `_` gives back the view name and the label names |
| `DatadogImporter.QueryTagsKeys` | datadog/datadog.go:60-65 | only `host` and label names become tags, and no tag name or value is empty |
| `DatadogImporter.QueryTagsLabel` | datadog/datadog.go:63-65 | a label with non-empty name and value becomes a tag with that value, unless a later label of the same name with a non-empty value overwrites it; later empty values are dropped |
| `DatadogImporter.QueryTagsHost` | datadog/datadog.go:60-61 | a non-empty host is the `host` tag unless a label named `host` with a non-empty value overwrites it |
| `DatadogImporter.QueryTagsExtraValuesIgnored` | datadog/datadog.go:63-65 | label values beyond the label names are ignored |
| `DatadogImporter.PickPointCases` | datadog/datadog.go:73-87 | the data of the first point of the first series when both exist, otherwise 0.0 |
| `DatadogImporter.PickPointOnlyFirst` | datadog/datadog.go:73-87 | every later series, and every later point of the first series, is discarded |
| `GoTime.Unix` | datadog/datadog.go:68 | whole seconds rounded down: `s` seconds is at or before the instant and `s + 1` seconds is after it |
| `GoTime.UnixMinuteEarlier` | datadog/datadog.go:43 | one minute before `t` is exactly 60 Unix seconds before `Unix(t)` |
| `StackdriverLegacy.TagsToFilter` | stackdriver/stackdriver.go:82-95 | no labels gives `("", nil)` whatever the values; a count mismatch gives an error with both counts; otherwise one space-led `metric.label.k="v"` clause per label, in label order |
| `StackdriverLegacy.LabelClauses` | stackdriver/stackdriver.go:90-93 | one clause per label, pairing `labels[i]` with `values[i]` |
| `StackdriverLegacy.CreateInterval` | stackdriver/stackdriver.go:96-106 | start and end are the instants' Unix seconds, rounded down |
| `StackdriverLegacy.LegacyFilter.constructor` | stackdriver/stackdriver.go:23-26 | `newFilter` is the empty string |
| `StackdriverLegacy.LegacyFilter.AddResourceType` | stackdriver/stackdriver.go:28-31 | always appends a space then `resource.type="t"`, so from empty it gives ` resource.type="t"` |
| `StackdriverLegacy.LegacyFilter.AddMetricType` | stackdriver/stackdriver.go:33-40 | appends ` custom.googleapis.com/opencensus/t`, with no `metric.type=` and no quotes |
| `StackdriverLegacy.LegacyFilter.AddLabels` | stackdriver/stackdriver.go:42-50 | visits every key once and appends the space-joined clauses with no separator before them |
| `StackdriverLegacy.MapClauses` | stackdriver/stackdriver.go:45-48 | one unquoted-key clause per visited key, at the same position |
| `StackdriverLegacy.MetricNameToFilter` | stackdriver/stackdriver.go:72-81 | the Sprintf of stackdriver.go:77-80, character for character: `resource.type="global" metric.type="custom.googleapis.com/opencensus/` + prefix + name + `"` |
| `StackdriverLegacy.LegacyFilter.String` | stackdriver/stackdriver.go:52-55 | the filter's text itself |
| `StackdriverLegacy.MetricNameToFilterClauses` | stackdriver/stackdriver.go:72-81 | `metricNameToFilter(p, n)` is `resource.type="global"`, a space, and `metric.type="custom.googleapis.com/opencensus/` + p + n + `"` |
| `StackdriverLegacy.FilterIsSpaceJoined` | stackdriver/stackdriver.go:150-157 | `metricNameToFilter` followed by `tagsToFilter` is all clauses joined by single spaces, with no leading or trailing space |
| `StackdriverLegacy.AgreesWithFilter` | stackdriver/stackdriver.go:72-81 | `metricNameToFilter` equals what the newer `Filter` builds from empty with the global resource type and the metric type `p + n` |

## Left out

- `main` in stackdriver/stackdriver.go (lines 111-216) is not modelled: the Cloud Monitoring client, the iterator, printing, `intervalToString` with its RFC 3339 formatting, and the float product `count * mean` used only for printing.
- The `View` type of stackdriver/stackdriver.go (lines 57-70) is not modelled. It is unused, and its `Value` returns 0.0.
- The Datadog client is not modelled: `init` reading `DD_API`/`DD_APP`, `client.QueryMetrics` as a network call, `os.Hostname`, `Stop` and all logging. The host name and the backend become parameters of `DatadogImporter.Value`.
- DatadogImporter.Value: the backend is a total function of the window and the query string. A failing backend call ends the process through `log.Fatal` (datadog/datadog.go:68-71), and that is not modelled. A nil timestamp or value pointer in a point is not modelled either, and neither is a nil metric name in a series (datadog/datadog.go:76).
- The Datadog importer is not registered as a `StatsView.Importer` value. Its `Value` allocates a query object and depends on map order, so it is a method, not a function. The registry treats every importer as an abstract name plus a `Value` function.
- The slice form of `RegisterImporter` in stats/view/view.go (lines 33-36) is replaced by the map registry of importer.go. Its resolution semantics are kept as `Collect`.
- `View.Value` reads the clock with `time.Now()`. The instant is a parameter here.
- Views are held by value, not through `*View` pointers, so aliasing of a registered view is not captured.
- Concurrent access to the package-level registries is not modelled. The code has no locking, and the model is single-threaded.
- float64 point values are modelled as `real` and treated as opaque. The code does no arithmetic on them.
- The demo programs under examples/ are not modelled: exporter setup, goroutines, sleep loops and random measurements.
