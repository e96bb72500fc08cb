/**
  The Datadog metric query of datadog/query.go: a metric name and a map of
  tags, rendered as `metric{k1:v1,k2:v2}`, or as the bare metric when there
  are no tags. Tags with an empty key or an empty value are never stored.
  Tags are rendered in Go's map iteration order, which is unspecified.
 */
module DatadogQuery {
  import opened Strings

  /** Tag under which `AddHostname` stores the host. */
  const HostTag: string := "host"

  /** The tag map after `AddTagValue(tag, value)`. */
  function WithTag(tags: map<string, string>, tag: string, value: string): (r: map<string, string>)
    ensures tag != "" && value != "" ==> tag in r && r[tag] == value
    ensures tag == "" || value == "" ==> r == tags
    ensures forall k :: k != tag ==> (k in r <==> k in tags)
    ensures forall k :: k in r && k != tag ==> r[k] == tags[k]
  {
    if tag != "" && value != "" then tags[tag := value] else tags
  }

  /** No tag has an empty name or an empty value. */
  ghost predicate NoEmptyTags(tags: map<string, string>)
  {
    "" !in tags && forall k :: k in tags ==> tags[k] != ""
  }

  function Entry(key: string, value: string): string
  {
    key + ":" + value
  }

  /** The `key:value` entries of `tags`, visited in `order`. */
  function Entries(order: seq<string>, tags: map<string, string>): (r: seq<string>)
    requires forall i :: 0 <= i < |order| ==> order[i] in tags
    ensures |r| == |order|
    ensures forall i :: 0 <= i < |order| ==> r[i] == Entry(order[i], tags[order[i]])
    decreases |order|
  {
    if order == [] then []
    else
      var n := |order| - 1;
      Entries(order[..n], tags) + [Entry(order[n], tags[order[n]])]
  }

  /** What `TagString` renders when the map iteration visits the tags in `order`. */
  function TagText(tags: map<string, string>, order: seq<string>): string
    requires forall i :: 0 <= i < |order| ==> order[i] in tags
  {
    if |tags| == 0 then "" else "{" + Join(Entries(order, tags), ",") + "}"
  }

  /** `Query` of datadog/query.go. */
  class Query {
    var metric: string
    var tags: map<string, string>

    ghost predicate Valid()
      reads this
    {
      NoEmptyTags(tags)
    }

    /** `NewQuery`: the metric with no tags. */
    constructor (metric: string)
      ensures this.metric == metric && tags == map[]
      ensures Valid()
    {
      this.metric := metric;
      tags := map[];
    }

    /** `AddHostname`: the host is stored as the tag `host`, so an empty host adds nothing. */
    method AddHostname(host: string)
      requires Valid()
      modifies this
      ensures Valid()
      ensures metric == old(metric)
      ensures tags == WithTag(old(tags), HostTag, host)
    {
      AddTagValue(HostTag, host);
    }

    /** `AddTagValue`: store or overwrite the tag unless its name or value is empty. */
    method AddTagValue(tag: string, value: string)
      requires Valid()
      modifies this
      ensures Valid()
      ensures metric == old(metric)
      ensures tags == WithTag(old(tags), tag, value)
    {
      if tag != "" && value != "" {
        tags := tags[tag := value];
      }
    }

    /**
      `TagString`: "" with no tags, otherwise the `key:value` entries
      comma-separated between braces, in the iteration order returned as `order`.
     */
    method TagString() returns (r: string, ghost order: seq<string>)
      ensures IsEnumeration(order, tags.Keys)
      ensures r == TagText(tags, order)
      ensures r == "" <==> |tags| == 0
      ensures |tags| > 0 ==> |r| >= 2 && r[0] == '{' && r[|r| - 1] == '}'
    {
      order := [];
      if |tags| == 0 {
        EnumerationSize(order, tags.Keys);
        return "", order;
      }
      var entries: seq<string> := [];
      var rest := tags.Keys;
      while rest != {}
        invariant rest <= tags.Keys
        invariant forall i :: 0 <= i < |order| ==> order[i] in tags && order[i] !in rest
        invariant forall i, j :: 0 <= i < j < |order| ==> order[i] != order[j]
        invariant forall k :: k in tags.Keys ==> k in rest || k in order
        invariant entries == Entries(order, tags)
        decreases rest
      {
        var key :| key in rest;
        entries := entries + [Entry(key, tags[key])];
        ghost var visited := order;
        order := order + [key];
        assert order[..|order| - 1] == visited;
        rest := rest - {key};
      }
      r := "{" + Join(entries, ",") + "}";
    }

    /** `String`: the metric followed by the tag string. */
    method String() returns (r: string, ghost order: seq<string>)
      ensures IsEnumeration(order, tags.Keys)
      ensures r == metric + TagText(tags, order)
      ensures metric <= r && (r == metric <==> |tags| == 0)
    {
      var t;
      t, order := TagString();
      r := metric + t;
    }
  }

  /** With no tags the query is the bare metric name, not `metric{}`. */
  lemma NoTagsBareMetric(metric: string, order: seq<string>)
    requires IsEnumeration(order, {})
    ensures metric + TagText(map[], order) == metric
  {
  }

  /** Every tag shows up as its `key:value` entry, whatever the iteration order. */
  lemma TagTextHasEveryTag(tags: map<string, string>, order: seq<string>, key: string)
    requires IsEnumeration(order, tags.Keys)
    requires key in tags
    ensures Contains(TagText(tags, order), Entry(key, tags[key]))
  {
    var i :| 0 <= i < |order| && order[i] == key;
    var entries := Entries(order, tags);
    JoinContainsPart(entries, ",", i);
    ContainsPrepend("{", Join(entries, ","), Entry(key, tags[key]));
    ContainsAppend("{" + Join(entries, ","), "}", Entry(key, tags[key]));
  }

  /**
    With tags whose names and values hold no comma, the rendering holds
    exactly one comma fewer than there are tags: none for a single tag.
   */
  lemma TagTextCommas(tags: map<string, string>, order: seq<string>)
    requires IsEnumeration(order, tags.Keys)
    requires |tags| > 0
    requires forall k :: k in tags ==> ',' !in k && ',' !in tags[k]
    ensures Count(TagText(tags, order), ',') == |tags| - 1
  {
    EnumerationSize(order, tags.Keys);
    var entries := Entries(order, tags);
    forall i | 0 <= i < |entries|
      ensures ',' !in entries[i]
    {
      assert entries[i] == order[i] + ":" + tags[order[i]];
    }
    JoinCount(entries, ',');
    CountConcat("{", Join(entries, ","), ',');
    CountConcat("{" + Join(entries, ","), "}", ',');
  }

  /** With a single tag the rendering is determined: `{key:value}`. */
  lemma TagTextSingle(key: string, value: string, order: seq<string>)
    requires IsEnumeration(order, {key})
    ensures TagText(map[key := value], order) == "{" + key + ":" + value + "}"
  {
    EnumerationOfSingleton(order, key);
    assert Entries(order, map[key := value]) == [Entry(key, value)];
  }

  /** `AddTagValue` keeps every stored tag name and value non-empty. */
  lemma WithTagKeepsNoEmptyTags(tags: map<string, string>, tag: string, value: string)
    requires NoEmptyTags(tags)
    ensures NoEmptyTags(WithTag(tags, tag, value))
  {
  }
}
