/**
  The Stackdriver (Cloud Monitoring) filter accumulator of stackdriver/filter.go.

  A `Filter` is a string that grows clause by clause. `add` puts a single
  space in front of the new text only when the filter is already non-empty.
  A second resource-type or metric-type clause is fatal; the code detects it
  by looking for the key anywhere in the string, so a label value that
  happens to contain the key blocks it as well. Label clauses come out in
  the order Go's map iteration yields them, and the code writes the label
  key in double quotes: metric.label."key"="value".
 */
module StackdriverFilter {
  import opened Strings

  const ResourceTypeKey: string := "resource.type"
  const MetricTypeKey: string := "metric.type"
  const MetricLabelKey: string := "metric.label"
  /** Prefix of every OpenCensus custom metric in Cloud Monitoring. */
  const MetricPath: string := "custom.googleapis.com/opencensus"

  /** The filter `f` after `add(s)`. */
  function Added(f: string, s: string): string
  {
    if |f| == 0 then s else f + " " + s
  }

  /** The filter `f` after adding each of `parts` in turn. */
  function AddAll(f: string, parts: seq<string>): string
    decreases |parts|
  {
    if parts == [] then f else AddAll(Added(f, parts[0]), parts[1..])
  }

  function ResourceTypeClause(t: string): string
  {
    ResourceTypeKey + "=\"" + t + "\""
  }

  function MetricTypeClause(t: string): string
  {
    MetricTypeKey + "=\"" + MetricPath + "/" + t + "\""
  }

  /** One label clause as the code writes it, key quoted. */
  function LabelClause(key: string, value: string): string
  {
    MetricLabelKey + ".\"" + key + "\"=\"" + value + "\""
  }

  /** The label clauses for the keys of `m`, visited in `order`. */
  function LabelClauses(order: seq<string>, m: map<string, string>): (r: seq<string>)
    requires forall i :: 0 <= i < |order| ==> order[i] in m
    ensures |r| == |order|
    ensures forall i :: 0 <= i < |order| ==> r[i] == LabelClause(order[i], m[order[i]])
    decreases |order|
  {
    if order == [] then []
    else
      var n := |order| - 1;
      LabelClauses(order[..n], m) + [LabelClause(order[n], m[order[n]])]
  }

  /** The text `AddLabels(m)` hands to `add` when it visits the keys in `order`. */
  function LabelsText(order: seq<string>, m: map<string, string>): string
    requires forall i :: 0 <= i < |order| ==> order[i] in m
  {
    Join(LabelClauses(order, m), " ")
  }

  /** `Filter` of stackdriver/filter.go: the string itself is the state. */
  class Filter {
    var text: string

    /** `NewFilter`: the empty filter. */
    constructor ()
      ensures text == "" && Empty()
    {
      text := "";
    }

    predicate Empty()
      reads this
    {
      |String()| == 0
    }

    function String(): string
      reads this
    {
      text
    }

    /** `add`: append `s`, with one space in front when the filter is non-empty. */
    method Add(s: string)
      modifies this
      ensures text == Added(old(text), s)
      ensures Empty() <==> old(Empty()) && s == ""
    {
      var spacer := "";
      if !Empty() {
        spacer := " ";
      }
      text := text + spacer + s;
    }

    /** `AddResourceType`: fatal when the filter already mentions resource.type anywhere. */
    method AddResourceType(t: string)
      requires !Contains(text, ResourceTypeKey)
      modifies this
      ensures text == Added(old(text), ResourceTypeClause(t))
      ensures Contains(text, ResourceTypeKey)
    {
      ResourceTypeRecorded(text, t);
      Add(ResourceTypeClause(t));
    }

    /** `AddMetricType`: fatal when the filter already mentions metric.type anywhere. */
    method AddMetricType(t: string)
      requires !Contains(text, MetricTypeKey)
      modifies this
      ensures text == Added(old(text), MetricTypeClause(t))
      ensures Contains(text, MetricTypeKey)
    {
      MetricTypeRecorded(text, t);
      Add(MetricTypeClause(t));
    }

    /**
      `AddLabels`: one clause per entry of `m`, space-separated, in the
      map's iteration order, which is returned as `order`.
     */
    method AddLabels(m: map<string, string>) returns (ghost order: seq<string>)
      modifies this
      ensures IsEnumeration(order, m.Keys)
      ensures text == Added(old(text), LabelsText(order, m))
    {
      var labels: seq<string> := [];
      var rest := m.Keys;
      order := [];
      while rest != {}
        invariant rest <= m.Keys
        invariant forall i :: 0 <= i < |order| ==> order[i] in m && order[i] !in rest
        invariant forall i, j :: 0 <= i < j < |order| ==> order[i] != order[j]
        invariant forall k :: k in m.Keys ==> k in rest || k in order
        invariant labels == LabelClauses(order, m)
        decreases rest
      {
        var key :| key in rest;
        labels := labels + [LabelClause(key, m[key])];
        ghost var visited := order;
        order := order + [key];
        assert order[..|order| - 1] == visited;
        rest := rest - {key};
      }
      Add(Join(labels, " "));
    }
  }

  /** A filter that is non-empty stays non-empty, and adding a non-empty clause makes it non-empty. */
  lemma AddedEmpty(f: string, s: string)
    ensures Added(f, s) == "" <==> f == "" && s == ""
  {
  }

  /** `add` never disturbs what is already there: the old filter is a prefix and the new text a suffix. */
  lemma AddedExtends(f: string, s: string)
    ensures f <= Added(f, s)
    ensures Added(f, s)[|Added(f, s)| - |s|..] == s
  {
  }

  lemma {:induction false} AddAllKeepsContains(f: string, parts: seq<string>, sub: string)
    requires Contains(f, sub)
    ensures Contains(AddAll(f, parts), sub)
    decreases |parts|
  {
    if parts != [] {
      if f != "" {
        ContainsAppend(f, " " + parts[0], sub);
        assert f + " " + parts[0] == f + (" " + parts[0]);
      } else {
        assert Contains(Added(f, parts[0]), sub) by {
          assert sub <= f;
          assert sub == [];
        }
      }
      AddAllKeepsContains(Added(f, parts[0]), parts[1..], sub);
    }
  }

  lemma {:induction false} AddedContainsClause(f: string, clause: string, key: string)
    requires key <= clause
    ensures Contains(Added(f, clause), key)
  {
    if f == "" {
      assert Contains(clause, key);
    } else {
      assert Contains(clause, key);
      ContainsPrepend(f + " ", clause, key);
    }
  }

  lemma ResourceTypeRecorded(f: string, t: string)
    ensures Contains(Added(f, ResourceTypeClause(t)), ResourceTypeKey)
  {
    AddedContainsClause(f, ResourceTypeClause(t), ResourceTypeKey);
  }

  lemma MetricTypeRecorded(f: string, t: string)
    ensures Contains(Added(f, MetricTypeClause(t)), MetricTypeKey)
  {
    AddedContainsClause(f, MetricTypeClause(t), MetricTypeKey);
  }

  /**
    Once a resource-type clause is in, whatever is added afterwards, the
    filter mentions resource.type, so a second `AddResourceType` is fatal.
   */
  lemma ResourceTypeOnlyOnce(f: string, t: string, later: seq<string>)
    ensures Contains(AddAll(Added(f, ResourceTypeClause(t)), later), ResourceTypeKey)
  {
    ResourceTypeRecorded(f, t);
    AddAllKeepsContains(Added(f, ResourceTypeClause(t)), later, ResourceTypeKey);
  }

  /** Likewise a second `AddMetricType` is fatal. */
  lemma MetricTypeOnlyOnce(f: string, t: string, later: seq<string>)
    ensures Contains(AddAll(Added(f, MetricTypeClause(t)), later), MetricTypeKey)
  {
    MetricTypeRecorded(f, t);
    AddAllKeepsContains(Added(f, MetricTypeClause(t)), later, MetricTypeKey);
  }

  lemma {:induction false} AddAllAfter(f: string, parts: seq<string>)
    requires f != "" && parts != []
    ensures AddAll(f, parts) == f + " " + Join(parts, " ")
    decreases |parts|
  {
    if |parts| > 1 {
      AddAllAfter(f + " " + parts[0], parts[1..]);
      assert f + " " + parts[0] + " " + Join(parts[1..], " ") == f + " " + (parts[0] + " " + Join(parts[1..], " "));
    }
  }

  /**
    A filter built from empty by adding clauses, the first of which is
    non-empty, is exactly the clauses joined by single spaces.
   */
  lemma AddAllIsJoin(parts: seq<string>)
    requires parts != [] && parts[0] != ""
    ensures AddAll("", parts) == Join(parts, " ")
  {
    if |parts| > 1 {
      AddAllAfter(parts[0], parts[1..]);
    }
  }

  /** Every entry of the map shows up as its clause in the filter after `AddLabels`. */
  lemma LabelsAllPresent(f: string, m: map<string, string>, order: seq<string>, key: string)
    requires IsEnumeration(order, m.Keys)
    requires key in m
    ensures Contains(Added(f, LabelsText(order, m)), LabelClause(key, m[key]))
  {
    var i :| 0 <= i < |order| && order[i] == key;
    JoinContainsPart(LabelClauses(order, m), " ", i);
    if f != "" {
      ContainsPrepend(f + " ", LabelsText(order, m), LabelClause(key, m[key]));
    }
  }

  /**
    The presence check is by substring: a label value mentioning
    metric.type makes a later `AddMetricType` fatal.
   */
  lemma LabelValueBlocksMetricType(f: string, m: map<string, string>, order: seq<string>, key: string)
    requires IsEnumeration(order, m.Keys)
    requires key in m && Contains(m[key], MetricTypeKey)
    ensures Contains(Added(f, LabelsText(order, m)), MetricTypeKey)
  {
    var clause := LabelClause(key, m[key]);
    LabelsAllPresent(f, m, order, key);
    var head := MetricLabelKey + ".\"" + key + "\"=\"";
    ContainsPrepend(head, m[key], MetricTypeKey);
    ContainsAppend(head + m[key], "\"", MetricTypeKey);
    assert clause == head + m[key] + "\"";
    ContainsTransitive(Added(f, LabelsText(order, m)), clause, MetricTypeKey);
  }

  /**
    `AddLabels` with no entries leaves an empty filter empty but gives a
    non-empty one a trailing space, since `add("")` still inserts the spacer.
   */
  lemma NoLabels(f: string)
    ensures Added(f, LabelsText([], map[])) == if f == "" then "" else f + " "
  {
  }

  /**
    The combined scenario of the package's own tests, with the two labels
    visited in key order: four clauses joined by single spaces.
   */
  lemma MultiPartFilter()
    ensures AddAll("", [ResourceTypeClause("R"), MetricTypeClause("M"),
                        LabelsText(["key1", "key2"], map["key1" := "value1", "key2" := "value2"])])
         == ResourceTypeClause("R") + " " + MetricTypeClause("M") + " "
            + LabelClause("key1", "value1") + " " + LabelClause("key2", "value2")
  {
    var m := map["key1" := "value1", "key2" := "value2"];
    var order := ["key1", "key2"];
    assert order[..1] == ["key1"];
    assert LabelClauses(order[..1], m) == [LabelClause("key1", "value1")];
    assert LabelClauses(order, m) == [LabelClause("key1", "value1"), LabelClause("key2", "value2")];
    var labels := LabelsText(order, m);
    var r, t := ResourceTypeClause("R"), MetricTypeClause("M");
    var parts := [r, t, labels];
    AddAllIsJoin(parts);
    assert parts[1..][1..] == [labels];
    assert Join([labels], " ") == labels;
    assert Join(parts[1..], " ") == t + " " + labels;
  }

  /** From empty, `AddResourceType(t)` gives `resource.type="t"`, character for character. */
  lemma ResourceTypeClauseText(t: string)
    ensures Added("", ResourceTypeClause(t)) == "resource.type=\"" + t + "\""
  {
    assert ResourceTypeKey + "=\"" == "resource.type=\"";
  }

  /** From empty, `AddMetricType(t)` gives `metric.type="custom.googleapis.com/opencensus/t"`. */
  lemma MetricTypeClauseText(t: string)
    ensures Added("", MetricTypeClause(t)) == "metric.type=\"custom.googleapis.com/opencensus/" + t + "\""
  {
    var head := MetricTypeKey + "=\"";
    assert head == "metric.type=\"";
    var path := head + MetricPath;
    assert path == "metric.type=\"custom.googleapis.com/opencensus";
    assert path + "/" == "metric.type=\"custom.googleapis.com/opencensus/";
    assert MetricTypeClause(t) == path + "/" + t + "\"";
  }

  /**
    A resource-type clause does not block the metric type that follows it:
    when `t` has no letter m, the clause does not contain `metric.type`.
   */
  lemma ResourceClauseAdmitsMetricType(t: string)
    requires 'm' !in t
    ensures !Contains(ResourceTypeClause(t), MetricTypeKey)
  {
    var clause := ResourceTypeClause(t);
    assert 'm' !in ResourceTypeKey + "=\"";
    assert 'm' !in clause;
    if Contains(clause, MetricTypeKey) {
      FirstCharIn(clause, MetricTypeKey);
      assert false;
    }
  }

  /** The empty filter contains no key, so the first `AddResourceType` is never fatal. */
  lemma EmptyContainsNoKey(key: string)
    requires key != ""
    ensures !Contains("", key)
  {
    if Contains("", key) {
      FirstCharIn("", key);
    }
  }

  /**
    The build sequence of the package's multi-part test, for any resource
    type without the letter m: a new filter, its resource type, its metric
    type and its labels. No step is fatal, and the result is the clauses
    added in turn.
   */
  method BuildFilter(resourceType: string, metricType: string, labels: map<string, string>)
    returns (f: Filter, ghost order: seq<string>)
    requires 'm' !in resourceType
    ensures fresh(f)
    ensures IsEnumeration(order, labels.Keys)
    ensures f.text == AddAll("", [ResourceTypeClause(resourceType), MetricTypeClause(metricType),
                                  LabelsText(order, labels)])
  {
    f := new Filter();
    EmptyContainsNoKey(ResourceTypeKey);
    f.AddResourceType(resourceType);
    ResourceClauseAdmitsMetricType(resourceType);
    f.AddMetricType(metricType);
    order := f.AddLabels(labels);
    var parts := [ResourceTypeClause(resourceType), MetricTypeClause(metricType), LabelsText(order, labels)];
    var first := Added("", parts[0]);
    var second := Added(first, parts[1]);
    assert parts[1..][1..] == [parts[2]];
    assert AddAll(second, [parts[2]]) == Added(second, parts[2]);
    assert AddAll(first, parts[1..]) == AddAll(second, [parts[2]]);
  }

  /** A label clause as the code writes it: the key comes out between double quotes. */
  lemma LabelClauseText()
    ensures LabelClause("key1", "value1") == "metric.label.\"key1\"=\"value1\""
  {
  }
}
