/**
  The view package of stats/view: views, the importer registry and the
  resolution of a view's value across every registered importer.

  The package-level variables `importers` and `views` become the fields of
  one `Registry` object. The registry is the map keyed by importer name of
  stats/view/importer.go; the resolution loop is the one of
  stats/view/view.go, which stores whatever value an importer returned
  under its name, even when the importer also returned an error. The slice
  registry that view.go declares as well survives as `Collect`, the same
  loop over a list in which a later importer overwrites an earlier one of
  the same name.

  An importer is a value: its name and its `Value` behaviour, a function of
  the view, the label values and the instant asked about.
 */
module StatsView {
  import opened Wrappers
  import opened GoTime

  /** `View`: a metric name and its ordered label names. */
  datatype View = View(name: string, labelNames: seq<string>)

  /** What an importer's `Value` returns: a float64 (opaque here) and a possibly nil error. */
  datatype Reading = Reading(value: real, err: Option<string>)

  /** An `Importer`: `Name()` and `Value(v, labelValues, t)`. */
  datatype Importer = Importer(name: string, value: (View, seq<string>, Time) -> Reading)

  /** The result map that the resolution loop builds over a list of importers, in list order. */
  function Collect(list: seq<Importer>, v: View, labelValues: seq<string>, now: Time): map<string, real>
    decreases |list|
  {
    if list == [] then map[]
    else
      var n := |list| - 1;
      Collect(list[..n], v, labelValues, now)[list[n].name := list[n].value(v, labelValues, now).value]
  }

  /** The registry: every key is the name of the importer stored under it, and no key is "". */
  ghost predicate WellKeyed(importers: map<string, Importer>)
  {
    "" !in importers && forall n :: n in importers ==> importers[n].name == n
  }

  /** The package state of stats/view: the registered importers and views. */
  class Registry {
    var importers: map<string, Importer>
    var views: seq<View>

    ghost predicate Valid()
      reads this
    {
      WellKeyed(importers)
    }

    /** Both registries start empty. */
    constructor ()
      ensures Valid()
      ensures importers == map[] && views == []
    {
      importers := map[];
      views := [];
    }

    /**
      `RegisterImporter`: an empty name is fatal; otherwise the importer is
      stored under its name, replacing one of the same name.
     */
    method RegisterImporter(i: Importer)
      requires Valid()
      requires i.name != ""
      modifies this
      ensures Valid()
      ensures importers == old(importers)[i.name := i]
      ensures views == old(views)
    {
      importers := importers[i.name := i];
    }

    /** `UnregisterImporter`: drop the entry under the importer's name, if any. */
    method UnregisterImporter(i: Importer)
      requires Valid()
      modifies this
      ensures Valid()
      ensures importers == old(importers) - {i.name}
      ensures views == old(views)
    {
      importers := importers - {i.name};
    }

    /** `Register`: append the views in argument order; the returned error is always nil. */
    method Register(vv: seq<View>) returns (err: Option<string>)
      modifies this
      ensures views == old(views) + vv
      ensures importers == old(importers)
      ensures err == None
    {
      views := views + vv;
      err := None;
    }

    /**
      `View.Value`: ask every registered importer about `v` at the instant
      `now`, with the label values passed through unchecked, and keep each
      answer's value under the importer's name, error or not.
     */
    method Value(v: View, labelValues: seq<string>, now: Time) returns (values: map<string, real>)
      requires Valid()
      ensures values.Keys == importers.Keys
      ensures forall n :: n in values ==> values[n] == importers[n].value(v, labelValues, now).value
    {
      values := map[];
      var rest := importers.Keys;
      while rest != {}
        invariant rest <= importers.Keys
        invariant values.Keys == importers.Keys - rest
        invariant forall n :: n in values ==> values[n] == importers[n].value(v, labelValues, now).value
        decreases rest
      {
        var n :| n in rest;
        var importer := importers[n];
        var reading := importer.value(v, labelValues, now);
        values := values[importer.name := reading.value];
        rest := rest - {n};
      }
    }
  }

  /** Registering then unregistering a name that was absent gives back the registry as it was. */
  lemma RegisterUnregisterRestores(importers: map<string, Importer>, i: Importer)
    requires i.name !in importers
    ensures importers[i.name := i] - {i.name} == importers
  {
  }

  /** Unregistering is idempotent. */
  lemma UnregisterIdempotent(importers: map<string, Importer>, name: string)
    ensures importers - {name} - {name} == importers - {name}
  {
  }

  /** Registration with a non-empty name and unregistration keep the registry well keyed. */
  lemma RegistryStaysWellKeyed(importers: map<string, Importer>, i: Importer, name: string)
    requires WellKeyed(importers)
    requires i.name != ""
    ensures WellKeyed(importers[i.name := i])
    ensures WellKeyed(importers - {name})
  {
  }

  /** With no importers the resolution yields the empty map. */
  lemma NoImportersNoValues(v: View, labelValues: seq<string>, now: Time)
    ensures Collect([], v, labelValues, now) == map[]
  {
  }

  /** Over a list, the result has one key per importer name in the list. */
  lemma {:induction false} CollectKeys(list: seq<Importer>, v: View, labelValues: seq<string>, now: Time)
    ensures Collect(list, v, labelValues, now).Keys == set i | 0 <= i < |list| :: list[i].name
    decreases |list|
  {
    if list != [] {
      var n := |list| - 1;
      CollectKeys(list[..n], v, labelValues, now);
      var all := set i | 0 <= i < |list| :: list[i].name;
      var before := set i | 0 <= i < n :: list[..n][i].name;
      forall x | x in all
        ensures x in before + {list[n].name}
      {
        var i :| 0 <= i < |list| && list[i].name == x;
        if i < n {
          assert list[..n][i].name == x;
        }
      }
      assert all == before + {list[n].name};
    }
  }

  /**
    Over a list, a name's entry is the value of the LAST importer carrying
    that name: a later importer overwrites an earlier one's entry.
   */
  lemma {:induction false} CollectLastWins(list: seq<Importer>, v: View, labelValues: seq<string>, now: Time, i: nat)
    requires i < |list|
    requires forall j :: i < j < |list| ==> list[j].name != list[i].name
    ensures list[i].name in Collect(list, v, labelValues, now)
    ensures Collect(list, v, labelValues, now)[list[i].name] == list[i].value(v, labelValues, now).value
    decreases |list|
  {
    var n := |list| - 1;
    if i < n {
      CollectLastWins(list[..n], v, labelValues, now, i);
    }
  }
}
