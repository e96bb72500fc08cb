/**
  The Datadog importer of datadog/datadog.go, without its I/O: the host
  name (`os.Hostname`) and the metrics backend (`client.QueryMetrics`) are
  parameters. What is modelled is how `Value` derives the metric name, fills
  the query's tags, chooses the one-minute window and picks the point.
 */
module DatadogImporter {
  import opened Wrappers
  import opened Strings
  import opened GoTime
  import StatsView
  import DatadogQuery

  const ImporterName: string := "datadog"

  /** `Options`: the namespace prefixed to every metric name. */
  datatype Options = Options(namespace: string)

  datatype Importer = Importer(name: string, options: Options)

  /** A data point as the backend returns it: a timestamp in milliseconds and the value. */
  datatype Point = Point(timestampMs: real, data: real)

  /** One time series of the backend's answer. */
  datatype Series = Series(metric: string, points: seq<Point>)

  /** `NewImporter`: never fails, and the importer is called "datadog". */
  function NewImporter(o: Options): (r: (Importer, Option<string>))
    ensures Name(r.0) == ImporterName && r.0.options == o
    ensures r.1 == None
  {
    (Importer(ImporterName, o), None)
  }

  function Name(i: Importer): string
  {
    i.name
  }

  /**
    The metric name the query asks for: the view's name, after
    `namespace.` when there is a namespace, followed by `_` and the label
    names joined by `_` when there are label names.
   */
  function MetricName(namespace: string, v: StatsView.View): string
  {
    var name := if namespace != "" then namespace + "." + v.name else v.name;
    if |v.labelNames| > 0 then name + "_" + Join(v.labelNames, "_") else name
  }

  /** The tags of the query for label values `values`: the host, then one tag per label name. */
  function QueryTags(host: string, names: seq<string>, values: seq<string>): map<string, string>
    requires |values| >= |names|
    decreases |names|
  {
    if names == [] then DatadogQuery.WithTag(map[], DatadogQuery.HostTag, host)
    else
      var n := |names| - 1;
      DatadogQuery.WithTag(QueryTags(host, names[..n], values), names[n], values[n])
  }

  /**
    The value `Value` reports for the backend's answer: the data of the
    first point of the first series, 0.0 when there is no series or the
    first series has no point.
   */
  function PickPoint(ss: seq<Series>): (r: real)
  {
    if |ss| >= 1 && |ss[0].points| >= 1 then ss[0].points[0].data else 0.0
  }

  /**
    `Value`: query the backend over the minute up to `t` with the metric
    name and tags, and report the picked point. The returned error is
    always nil: a failing backend ends the process instead. `order` is the
    order in which the tags were rendered into the query string.
   */
  method Value(i: Importer, v: StatsView.View, labelValues: seq<string>, t: Time,
               host: string, backend: (int, int, string) -> seq<Series>)
    returns (value: real, err: Option<string>, ghost order: seq<string>)
    requires |labelValues| >= |v.labelNames|
    ensures err == None
    ensures IsEnumeration(order, QueryTags(host, v.labelNames, labelValues).Keys)
    ensures value == PickPoint(backend(Unix(t) - 60, Unix(t),
                      MetricName(i.options.namespace, v)
                      + DatadogQuery.TagText(QueryTags(host, v.labelNames, labelValues), order)))
  {
    var from := Add(t, -Minute);
    var query := new DatadogQuery.Query(MetricName(i.options.namespace, v));
    query.AddHostname(host);
    var k := 0;
    while k < |v.labelNames|
      invariant 0 <= k <= |v.labelNames|
      invariant query.Valid()
      invariant query.metric == MetricName(i.options.namespace, v)
      invariant query.tags == QueryTags(host, v.labelNames[..k], labelValues)
    {
      assert v.labelNames[..k + 1][..k] == v.labelNames[..k];
      query.AddTagValue(v.labelNames[k], labelValues[k]);
      k := k + 1;
    }
    assert v.labelNames[..k] == v.labelNames;
    var text;
    text, order := query.String();
    UnixMinuteEarlier(t);
    var ss := backend(Unix(from), Unix(t), text);
    err := None;
    if |ss| >= 1 {
      var s := ss[0];
      if |s.points| >= 1 {
        var p := s.points[0];
        return p.data, err, order;
      }
      return 0.0, err, order;
    }
    return 0.0, err, order;
  }

  /**
    The metric name is the view name and the label names joined by `_`,
    after `namespace.` when there is a namespace.
   */
  lemma MetricNameShape(namespace: string, v: StatsView.View)
    ensures MetricName(namespace, v)
         == (if namespace != "" then namespace + "." else "") + Join([v.name] + v.labelNames, "_")
  {
    var parts := [v.name] + v.labelNames;
    assert parts[1..] == v.labelNames;
  }

  /**
    When neither the view name nor a label name contains `_`, the label
    names can be read back from the metric name.
   */
  lemma MetricNameRecoversLabels(v: StatsView.View)
    requires '_' !in v.name
    requires forall i :: 0 <= i < |v.labelNames| ==> '_' !in v.labelNames[i]
    ensures Split(MetricName("", v), '_') == [v.name] + v.labelNames
  {
    MetricNameShape("", v);
    var parts := [v.name] + v.labelNames;
    forall i | 0 <= i < |parts|
      ensures '_' !in parts[i]
    {
      if i > 0 {
        assert parts[i] == v.labelNames[i - 1];
      }
    }
    SplitJoin(parts, '_');
  }

  /** Only the host tag and label names can become tags, and none of them is empty or has an empty value. */
  lemma {:induction false} QueryTagsKeys(host: string, names: seq<string>, values: seq<string>)
    requires |values| >= |names|
    ensures DatadogQuery.NoEmptyTags(QueryTags(host, names, values))
    ensures forall k :: k in QueryTags(host, names, values) ==> k == DatadogQuery.HostTag || k in names
    decreases |names|
  {
    if names != [] {
      var n := |names| - 1;
      QueryTagsKeys(host, names[..n], values);
      forall k | k in names[..n]
        ensures k in names
      {
        var j :| 0 <= j < n && names[..n][j] == k;
        assert names[j] == k;
      }
    }
  }

  /**
    A label whose name and value are non-empty is a tag with that value,
    unless a later label of the same name with a non-empty value overwrites
    it: a later empty value is dropped and leaves the tag in place.
   */
  lemma {:induction false} QueryTagsLabel(host: string, names: seq<string>, values: seq<string>, i: nat)
    requires |values| >= |names| && i < |names|
    requires names[i] != "" && values[i] != ""
    requires forall j :: i < j < |names| && names[j] == names[i] ==> values[j] == ""
    ensures names[i] in QueryTags(host, names, values)
    ensures QueryTags(host, names, values)[names[i]] == values[i]
    decreases |names|
  {
    var n := |names| - 1;
    if i < n {
      QueryTagsLabel(host, names[..n], values, i);
    }
  }

  /** A non-empty host is the `host` tag, unless a label of that name with a non-empty value overwrites it. */
  lemma {:induction false} QueryTagsHost(host: string, names: seq<string>, values: seq<string>)
    requires |values| >= |names|
    requires host != ""
    requires forall j :: 0 <= j < |names| && names[j] == DatadogQuery.HostTag ==> values[j] == ""
    ensures DatadogQuery.HostTag in QueryTags(host, names, values)
    ensures QueryTags(host, names, values)[DatadogQuery.HostTag] == host
    decreases |names|
  {
    if names != [] {
      var n := |names| - 1;
      QueryTagsHost(host, names[..n], values);
    }
  }

  /** Label values beyond the label names are ignored. */
  lemma {:induction false} QueryTagsExtraValuesIgnored(host: string, names: seq<string>, values: seq<string>)
    requires |values| >= |names|
    ensures QueryTags(host, names, values) == QueryTags(host, names, values[..|names|])
    decreases |names|
  {
    if names != [] {
      var n := |names| - 1;
      QueryTagsExtraValuesIgnored(host, names[..n], values);
      QueryTagsExtraValuesIgnored(host, names[..n], values[..|names|]);
      assert values[..|names|][..n] == values[..n];
    }
  }

  /** The picked value is the first point's data when there is one, and 0.0 otherwise. */
  lemma PickPointCases(ss: seq<Series>)
    ensures |ss| == 0 ==> PickPoint(ss) == 0.0
    ensures |ss| > 0 && |ss[0].points| == 0 ==> PickPoint(ss) == 0.0
    ensures |ss| > 0 && |ss[0].points| > 0 ==> PickPoint(ss) == ss[0].points[0].data
  {
  }

  /** Every series after the first, and every point after the first one of it, is discarded. */
  lemma PickPointOnlyFirst(s: Series, rest: seq<Series>)
    ensures PickPoint([s] + rest) == PickPoint([Series(s.metric, s.points[..if |s.points| > 0 then 1 else 0])])
  {
  }
}
