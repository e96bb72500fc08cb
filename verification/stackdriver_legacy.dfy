/**
  The older string helpers of stackdriver/stackdriver.go, a `package main`
  program that sits beside the stackdriver package: its own `filter` type,
  `metricNameToFilter`, `tagsToFilter` and `createInterval`.

  Unlike the newer `Filter`, the legacy `filter` always puts a space before
  a resource type or metric type, writes the metric type without
  `metric.type=` and without quotes, and glues label clauses on with no
  separator. `tagsToFilter` leads every label clause with a space, so the
  two helpers together give single-space-separated clauses.
 */
module StackdriverLegacy {
  import opened Wrappers
  import opened Strings
  import opened GoTime
  import StackdriverFilter

  const GlobalResource: string := "global"

  /** `metricNameToFilter`: the global resource type and the metric type of `prefix + name`. */
  function MetricNameToFilter(prefix: string, name: string): string
  {
    "resource.type=\"" + GlobalResource + "\" metric.type=\""
      + StackdriverFilter.MetricPath + "/" + prefix + name + "\""
  }

  /** One label clause as `tagsToFilter` and the legacy `addLabels` write it: key unquoted. */
  function LabelClause(key: string, value: string): string
  {
    "metric.label." + key + "=\"" + value + "\""
  }

  /** The label clauses pairing `labels[i]` with `values[i]`, in label order. */
  function LabelClauses(labels: seq<string>, values: seq<string>): (r: seq<string>)
    requires |labels| <= |values|
    ensures |r| == |labels|
    ensures forall i :: 0 <= i < |labels| ==> r[i] == LabelClause(labels[i], values[i])
    decreases |labels|
  {
    if labels == [] then []
    else
      var n := |labels| - 1;
      LabelClauses(labels[..n], values) + [LabelClause(labels[n], values[n])]
  }

  /** Each clause led by one space, concatenated. */
  function Spaced(clauses: seq<string>): string
    decreases |clauses|
  {
    if clauses == [] then ""
    else
      var n := |clauses| - 1;
      Spaced(clauses[..n]) + " " + clauses[n]
  }

  /** The error `tagsToFilter` returns for a count mismatch, with both counts. */
  datatype MismatchError = MismatchError(labels: nat, values: nat)

  /**
    `tagsToFilter`: "" for no labels whatever the values; a mismatch error
    when the counts differ; otherwise one space-led clause per label.
   */
  method TagsToFilter(labels: seq<string>, values: seq<string>) returns (res: string, err: Option<MismatchError>)
    ensures |labels| == 0 ==> res == "" && err == None
    ensures |labels| > 0 && |labels| != |values| ==> res == "" && err == Some(MismatchError(|labels|, |values|))
    ensures |labels| > 0 && |labels| == |values| ==> err == None && res == Spaced(LabelClauses(labels, values))
  {
    if |labels| == 0 {
      return "", None;
    }
    if |labels| != |values| {
      return "", Some(MismatchError(|labels|, |values|));
    }
    res := "";
    var i := 0;
    while i < |labels|
      invariant 0 <= i <= |labels|
      invariant res == Spaced(LabelClauses(labels[..i], values))
    {
      assert labels[..i + 1][..i] == labels[..i];
      res := res + " " + LabelClause(labels[i], values[i]);
      i := i + 1;
    }
    assert labels[..i] == labels;
    err := None;
  }

  /** `TimeInterval`: the start and end of a query window, in Unix seconds. */
  datatype TimeInterval = TimeInterval(startSeconds: int, endSeconds: int)

  /** `createInterval`: the two instants truncated to whole Unix seconds. */
  function CreateInterval(start: Time, end: Time): (r: TimeInterval)
    ensures r.startSeconds * Second <= start.nanos < (r.startSeconds + 1) * Second
    ensures r.endSeconds * Second <= end.nanos < (r.endSeconds + 1) * Second
  {
    TimeInterval(Unix(start), Unix(end))
  }

  /** The legacy `filter` type: the string itself is the state. */
  class LegacyFilter {
    var text: string

    /** `newFilter`: the empty filter. */
    constructor ()
      ensures text == ""
    {
      text := "";
    }

    function String(): string
      reads this
    {
      text
    }

    /** `addResourceType`: always a leading space, even on an empty filter. */
    method AddResourceType(t: string)
      modifies this
      ensures text == old(text) + " resource.type=\"" + t + "\""
    {
      text := text + " resource.type=\"" + t + "\"";
    }

    /** `addMetricType`: a space and the bare metric path, with no key and no quotes. */
    method AddMetricType(t: string)
      modifies this
      ensures text == old(text) + " " + StackdriverFilter.MetricPath + "/" + t
    {
      text := text + " " + StackdriverFilter.MetricPath + "/" + t;
    }

    /**
      `addLabels`: the label clauses of `m`, space-joined in the map's
      iteration order (returned as `order`), appended with no separator.
     */
    method AddLabels(m: map<string, string>) returns (ghost order: seq<string>)
      modifies this
      ensures IsEnumeration(order, m.Keys)
      ensures text == old(text) + Join(MapClauses(order, m), " ")
    {
      var labels: seq<string> := [];
      var rest := m.Keys;
      order := [];
      while rest != {}
        invariant rest <= m.Keys
        invariant forall i :: 0 <= i < |order| ==> order[i] in m && order[i] !in rest
        invariant forall i, j :: 0 <= i < j < |order| ==> order[i] != order[j]
        invariant forall k :: k in m.Keys ==> k in rest || k in order
        invariant labels == MapClauses(order, m)
        decreases rest
      {
        var key :| key in rest;
        labels := labels + [LabelClause(key, m[key])];
        ghost var visited := order;
        order := order + [key];
        assert order[..|order| - 1] == visited;
        rest := rest - {key};
      }
      text := text + Join(labels, " ");
    }
  }

  /** The label clauses for the keys of `m`, visited in `order`. */
  function MapClauses(order: seq<string>, m: map<string, string>): (r: seq<string>)
    requires forall i :: 0 <= i < |order| ==> order[i] in m
    ensures |r| == |order|
    ensures forall i :: 0 <= i < |order| ==> r[i] == LabelClause(order[i], m[order[i]])
    decreases |order|
  {
    if order == [] then []
    else
      var n := |order| - 1;
      MapClauses(order[..n], m) + [LabelClause(order[n], m[order[n]])]
  }

  lemma {:induction false} SpacedIsJoin(head: string, clauses: seq<string>)
    ensures head + Spaced(clauses) == Join([head] + clauses, " ")
    decreases |clauses|
  {
    if clauses != [] {
      var n := |clauses| - 1;
      SpacedIsJoin(head, clauses[..n]);
      JoinSnoc([head] + clauses[..n], clauses[n]);
      assert [head] + clauses[..n] + [clauses[n]] == [head] + clauses;
    }
  }

  lemma {:induction false} JoinSnoc(parts: seq<string>, last: string)
    requires parts != []
    ensures Join(parts + [last], " ") == Join(parts, " ") + " " + last
    decreases |parts|
  {
    if |parts| == 1 {
      assert (parts + [last])[1..] == [last];
    } else {
      JoinSnoc(parts[1..], last);
      assert (parts + [last])[1..] == parts[1..] + [last];
    }
  }

  /** `metricNameToFilter` is the global resource-type clause and the metric-type clause, space-separated. */
  lemma MetricNameToFilterClauses(prefix: string, name: string)
    ensures MetricNameToFilter(prefix, name)
         == StackdriverFilter.ResourceTypeClause(GlobalResource) + " "
            + StackdriverFilter.MetricTypeClause(prefix + name)
  {
    var rtKey, mtKey := StackdriverFilter.ResourceTypeKey, StackdriverFilter.MetricTypeKey;
    var path := StackdriverFilter.MetricPath;
    assert "resource.type=\"" == rtKey + "=\"";
    assert "\" metric.type=\"" == "\"" + " " + mtKey + "=\"";
    calc {
      MetricNameToFilter(prefix, name);
      "resource.type=\"" + GlobalResource + "\" metric.type=\"" + path + "/" + prefix + name + "\"";
      (rtKey + "=\"" + GlobalResource + "\"") + " " + (mtKey + "=\"" + path + "/" + (prefix + name) + "\"");
    }
  }

  /**
    `metricNameToFilter` followed by `tagsToFilter`, as the program puts
    them together: all clauses joined by single spaces, with no leading or
    trailing space.
   */
  lemma FilterIsSpaceJoined(prefix: string, name: string, labels: seq<string>, values: seq<string>)
    requires |labels| == |values|
    ensures MetricNameToFilter(prefix, name) + Spaced(LabelClauses(labels, values))
         == Join([StackdriverFilter.ResourceTypeClause(GlobalResource),
                  StackdriverFilter.MetricTypeClause(prefix + name)]
                 + LabelClauses(labels, values), " ")
  {
    var rt := StackdriverFilter.ResourceTypeClause(GlobalResource);
    var mt := StackdriverFilter.MetricTypeClause(prefix + name);
    var clauses := LabelClauses(labels, values);
    MetricNameToFilterClauses(prefix, name);
    TwoThenSpaced(rt, mt, clauses);
  }

  lemma TwoThenSpaced(first: string, second: string, clauses: seq<string>)
    ensures first + " " + second + Spaced(clauses) == Join([first, second] + clauses, " ")
  {
    SpacedIsJoin(second, clauses);
    var parts := [first, second] + clauses;
    assert parts[1..] == [second] + clauses;
    assert first + " " + second + Spaced(clauses) == first + " " + (second + Spaced(clauses));
  }

  /**
    The legacy helper and the newer filter builder agree: starting from an
    empty `Filter`, adding the global resource type and then the metric
    type `prefix + name` gives exactly `metricNameToFilter(prefix, name)`.
   */
  lemma AgreesWithFilter(prefix: string, name: string)
    ensures MetricNameToFilter(prefix, name)
         == StackdriverFilter.AddAll("", [StackdriverFilter.ResourceTypeClause(GlobalResource),
                                          StackdriverFilter.MetricTypeClause(prefix + name)])
  {
    var parts := [StackdriverFilter.ResourceTypeClause(GlobalResource),
                  StackdriverFilter.MetricTypeClause(prefix + name)];
    MetricNameToFilterClauses(prefix, name);
    StackdriverFilter.AddAllIsJoin(parts);
    assert parts[1..] == [parts[1]];
  }
}
