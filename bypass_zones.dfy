/**
 * Which zones to bypass when arming: the zone numbers read back from the
 * unique ids of this config entry's bypass switches that are on, sorted.
 * The entity registry is a sequence of (entity id, entry) pairs in its
 * iteration order, and the state machine is a map from entity id to state.
 */
module BypassZones {
  import opened Wrappers
  import opened Text
  import ZoneSwitch

  /** The fields of an entity-registry entry the scan reads. */
  datatype RegistryEntry = RegistryEntry(configEntryId: string, domain: string, uniqueId: string)

  type Registry = seq<(string, RegistryEntry)>

  type States = map<string, string>

  /** A bypass switch of config entry `entryId`: its domain and the `_bypass` marker. */
  predicate IsBypassSwitchOf(entry: RegistryEntry, entryId: string)
  {
    entry.configEntryId == entryId && entry.domain == "switch" && Contains(entry.uniqueId, "_bypass")
  }

  /** The entity has a state and that state is `"on"`. */
  predicate IsOn(states: States, entityId: string)
  {
    entityId in states && states[entityId] == "on"
  }

  /**
   * `int(unique_id.split("_")[-2])`; `None` when there is no such field
   * (`IndexError`) or it is not a decimal integer (`ValueError`).
   */
  function ZoneField(uniqueId: string): Option<int>
  {
    var parts := Split(uniqueId, '_');
    if |parts| < 2 then None else ParseInt(parts[|parts| - 2])
  }

  /** The zone one registry item contributes, if any. */
  function ZoneOf(item: (string, RegistryEntry), states: States, entryId: string): Option<int>
  {
    if IsBypassSwitchOf(item.1, entryId) && IsOn(states, item.0) then ZoneField(item.1.uniqueId)
    else None
  }

  /** The contributed zones in registry order, before sorting. */
  function SelectedZones(registry: Registry, states: States, entryId: string): seq<int>
  {
    if registry == [] then []
    else
      SelectedZones(registry[..|registry| - 1], states, entryId)
        + Contributed(ZoneOf(registry[|registry| - 1], states, entryId))
  }

  /** An optional zone as a list of zero or one zones. */
  function Contributed(z: Option<int>): seq<int>
  {
    if z.Some? then [z.value] else []
  }

  lemma SelectedSingle(item: (string, RegistryEntry), states: States, entryId: string)
    ensures SelectedZones([item], states, entryId) == Contributed(ZoneOf(item, states, entryId))
  {
    assert [item][..0] == [];
  }

  // ---------------------------------------------------------------------------
  // sorted()
  // ---------------------------------------------------------------------------

  predicate Sorted(s: seq<int>)
  {
    forall i, j :: 0 <= i < j < |s| ==> s[i] <= s[j]
  }

  /** Put `x` in its place in the sorted sequence `s`. */
  function Insert(x: int, s: seq<int>): (r: seq<int>)
    requires Sorted(s)
    ensures |r| == |s| + 1 && r[0] == if s == [] || x <= s[0] then x else s[0]
    ensures Sorted(r) && multiset(r) == multiset(s) + multiset{x}
  {
    if s == [] then [x]
    else if x <= s[0] then [x] + s
    else
      var t := Insert(x, s[1..]);
      PrependSorted(s[0], t);
      SplitFirst(s);
      [s[0]] + t
  }

  /** A sorted sequence stays sorted under a head no larger than its first element. */
  lemma PrependSorted(h: int, t: seq<int>)
    requires Sorted(t) && (t == [] || h <= t[0])
    ensures Sorted([h] + t)
  {
    var r := [h] + t;
    forall i, j | 0 <= i < j < |r|
      ensures r[i] <= r[j]
    {
      if i == 0 { assert r[j] == t[j - 1] && t[0] <= t[j - 1]; }
      else { assert r[i] == t[i - 1] && r[j] == t[j - 1]; }
    }
  }

  /** Python's `sorted` on integers: the same elements in ascending order. */
  function SortAscending(s: seq<int>): (r: seq<int>)
    ensures Sorted(r) && multiset(r) == multiset(s)
  {
    if s == [] then []
    else
      assert s == s[..|s| - 1] + [s[|s| - 1]];
      Insert(s[|s| - 1], SortAscending(s[..|s| - 1]))
  }

  /** A sorted sequence is determined by its elements. */
  lemma {:induction false} SortedUnique(a: seq<int>, b: seq<int>)
    requires Sorted(a) && Sorted(b) && multiset(a) == multiset(b)
    ensures a == b
  {
    if a != [] && b != [] {
      FirstIsLeast(a, b[0]);
      FirstIsLeast(b, a[0]);
      assert a[0] == b[0];
      SplitFirst(a);
      SplitFirst(b);
      assert multiset(a[1..]) == multiset(a) - multiset{a[0]} == multiset(b[1..]);
      SortedUnique(a[1..], b[1..]);
    } else {
      assert |a| == |multiset(a)| == |multiset(b)| == |b|;
    }
  }

  lemma FirstIsLeast(s: seq<int>, x: int)
    requires Sorted(s) && x in multiset(s)
    ensures s[0] <= x
  {
    var i :| 0 <= i < |s| && s[i] == x;
  }

  lemma SplitFirst(s: seq<int>)
    requires s != []
    ensures multiset(s) == multiset{s[0]} + multiset(s[1..])
  {
    assert s == [s[0]] + s[1..];
  }

  /** Sorting an already sorted sequence changes nothing. */
  lemma SortSorted(s: seq<int>)
    requires Sorted(s)
    ensures SortAscending(s) == s
  {
    SortedUnique(SortAscending(s), s);
  }

  // ---------------------------------------------------------------------------
  // _get_bypass_zones
  // ---------------------------------------------------------------------------

  /** The sorted zones to bypass. */
  function ZonesToBypass(registry: Registry, states: States, entryId: string): seq<int>
  {
    SortAscending(SelectedZones(registry, states, entryId))
  }

  /** The scan over the registry, appending each contributed zone, then sorting. */
  method ExtractBypassZones(registry: Registry, states: States, entryId: string) returns (zones: seq<int>)
    ensures zones == ZonesToBypass(registry, states, entryId)
  {
    var found: seq<int> := [];
    for i := 0 to |registry|
      invariant found == SelectedZones(registry[..i], states, entryId)
    {
      var (entityId, entity) := registry[i];
      assert registry[..i + 1][..i] == registry[..i];
      if entity.configEntryId == entryId && entity.domain == "switch" && Contains(entity.uniqueId, "_bypass") {
        if entityId in states && states[entityId] == "on" {
          var parts := Split(entity.uniqueId, '_');
          if |parts| >= 2 {
            var parsed := ParseInt(parts[|parts| - 2]);
            if parsed.Some? {
              found := found + [parsed.value];
            }
          }
        }
      }
    }
    assert registry[..|registry|] == registry;
    zones := SortAscending(found);
  }

  /** A unique id holding `_bypass` has at least two `_`-fields, so `[-2]` never fails. */
  lemma MarkerGivesTwoFields(uniqueId: string)
    requires Contains(uniqueId, "_bypass")
    ensures |Split(uniqueId, '_')| >= 2
  {
    var i: nat :| i <= |uniqueId| && OccursAt(uniqueId, "_bypass", i);
    assert uniqueId[i] == '_';
    SeparatorGivesTwoFields(uniqueId, '_', i);
  }

  lemma {:induction false} SeparatorGivesTwoFields(s: string, sep: char, i: nat)
    requires i < |s| && s[i] == sep
    ensures |Split(s, sep)| >= 2
  {
    if i > 0 {
      SeparatorGivesTwoFields(s[1..], sep, i - 1);
    }
  }

  /** Reading the sorted result: it is ascending and holds each contributed zone as often as it is contributed. */
  lemma ZonesToBypassSorted(registry: Registry, states: States, entryId: string)
    ensures Sorted(ZonesToBypass(registry, states, entryId))
    ensures multiset(ZonesToBypass(registry, states, entryId)) == multiset(SelectedZones(registry, states, entryId))
  {
  }

  /**
   * A zone is in the result exactly when some registry item is an "on" bypass
   * switch of this config entry whose unique id yields that zone.
   */
  lemma {:induction false} SelectedZonesMembers(registry: Registry, states: States, entryId: string, z: int)
    ensures z in SelectedZones(registry, states, entryId) <==>
      exists i :: 0 <= i < |registry| && ZoneOf(registry[i], states, entryId) == Some(z)
  {
    if registry != [] {
      var init, last := registry[..|registry| - 1], registry[|registry| - 1];
      SelectedZonesMembers(init, states, entryId, z);
      assert SelectedZones(registry, states, entryId)
        == SelectedZones(init, states, entryId) + Contributed(ZoneOf(last, states, entryId));
      assert z in Contributed(ZoneOf(last, states, entryId)) <==> ZoneOf(last, states, entryId) == Some(z);
      YieldsSnoc(registry, init, states, entryId, z);
    }
  }

  /** Some item of a non-empty registry yields `z` exactly when one before the last does or the last does. */
  lemma YieldsSnoc(registry: Registry, init: Registry, states: States, entryId: string, z: int)
    requires registry != [] && init == registry[..|registry| - 1]
    ensures (exists i :: 0 <= i < |registry| && ZoneOf(registry[i], states, entryId) == Some(z)) <==>
      (exists i :: 0 <= i < |init| && ZoneOf(init[i], states, entryId) == Some(z))
      || ZoneOf(registry[|registry| - 1], states, entryId) == Some(z)
  {
    if exists i :: 0 <= i < |init| && ZoneOf(init[i], states, entryId) == Some(z) {
      var i :| 0 <= i < |init| && ZoneOf(init[i], states, entryId) == Some(z);
      assert registry[i] == init[i];
    }
    if exists i :: 0 <= i < |registry| && ZoneOf(registry[i], states, entryId) == Some(z) {
      var i :| 0 <= i < |registry| && ZoneOf(registry[i], states, entryId) == Some(z);
      if i < |init| {
        assert init[i] == registry[i];
      }
    }
  }

  lemma ZonesToBypassMembers(registry: Registry, states: States, entryId: string, z: int)
    ensures z in ZonesToBypass(registry, states, entryId) <==>
      exists i :: 0 <= i < |registry|
        && IsBypassSwitchOf(registry[i].1, entryId) && IsOn(states, registry[i].0)
        && ZoneField(registry[i].1.uniqueId) == Some(z)
  {
    SelectedZonesMembers(registry, states, entryId, z);
    assert z in ZonesToBypass(registry, states, entryId) <==> z in multiset(SelectedZones(registry, states, entryId));
  }

  /** The scan of two registry parts is the scan of the first followed by that of the second. */
  lemma {:induction false} SelectedZonesAppend(a: Registry, b: Registry, states: States, entryId: string)
    ensures SelectedZones(a + b, states, entryId) == SelectedZones(a, states, entryId) + SelectedZones(b, states, entryId)
    decreases |b|
  {
    if b == [] {
      assert a + b == a;
    } else {
      var init := b[..|b| - 1];
      assert (a + b)[..|a + b| - 1] == a + init;
      SelectedZonesAppend(a, init, states, entryId);
    }
  }

  /**
   * An item that contributes nothing (another entry, another domain, no
   * marker, not on, or a field that does not parse) can sit anywhere in the
   * registry without changing the result.
   */
  lemma SkippedItem(a: Registry, item: (string, RegistryEntry), b: Registry, states: States, entryId: string)
    requires ZoneOf(item, states, entryId) == None
    ensures ZonesToBypass(a + [item] + b, states, entryId) == ZonesToBypass(a + b, states, entryId)
  {
    SkippedItemSelected(a, item, b, states, entryId);
  }

  lemma SkippedItemSelected(a: Registry, item: (string, RegistryEntry), b: Registry, states: States, entryId: string)
    requires ZoneOf(item, states, entryId) == None
    ensures SelectedZones(a + [item] + b, states, entryId) == SelectedZones(a + b, states, entryId)
  {
    SelectedZonesAppend(a + [item], b, states, entryId);
    SelectedZonesAppend(a, [item], states, entryId);
    SelectedZonesAppend(a, b, states, entryId);
    SelectedSingle(item, states, entryId);
  }

  /** The registry's iteration order does not matter: swapping two neighbours keeps the result. */
  lemma RegistryOrderIrrelevant(a: Registry, x: (string, RegistryEntry), y: (string, RegistryEntry), b: Registry,
                                states: States, entryId: string)
    ensures ZonesToBypass(a + [x, y] + b, states, entryId) == ZonesToBypass(a + [y, x] + b, states, entryId)
  {
    var p := SelectedZones(a + [x, y] + b, states, entryId);
    var q := SelectedZones(a + [y, x] + b, states, entryId);
    SwapSameZones(a, x, y, b, states, entryId);
    SortedUnique(SortAscending(p), SortAscending(q));
  }

  lemma SwapSameZones(a: Registry, x: (string, RegistryEntry), y: (string, RegistryEntry), b: Registry,
                      states: States, entryId: string)
    ensures multiset(SelectedZones(a + [x, y] + b, states, entryId))
      == multiset(SelectedZones(a + [y, x] + b, states, entryId))
  {
    var sa, sb := SelectedZones(a, states, entryId), SelectedZones(b, states, entryId);
    var cx, cy := Contributed(ZoneOf(x, states, entryId)), Contributed(ZoneOf(y, states, entryId));
    SelectedPair(x, y, states, entryId);
    SelectedPair(y, x, states, entryId);
    SelectedZonesAppend(a + [x, y], b, states, entryId);
    SelectedZonesAppend(a + [y, x], b, states, entryId);
    SelectedZonesAppend(a, [x, y], states, entryId);
    SelectedZonesAppend(a, [y, x], states, entryId);
    assert SelectedZones(a + [x, y] + b, states, entryId) == sa + (cx + cy) + sb;
    assert SelectedZones(a + [y, x] + b, states, entryId) == sa + (cy + cx) + sb;
  }

  lemma SelectedPair(x: (string, RegistryEntry), y: (string, RegistryEntry), states: States, entryId: string)
    ensures SelectedZones([x, y], states, entryId)
      == Contributed(ZoneOf(x, states, entryId)) + Contributed(ZoneOf(y, states, entryId))
  {
    assert [x, y][..1] == [x];
    SelectedSingle(x, states, entryId);
  }

  /** The unique id a bypass switch is given parses back to its zone, marker included. */
  lemma UniqueIdRoundTrip(entryId: string, zone: int)
    ensures Contains(ZoneSwitch.UniqueId(entryId, zone), "_bypass")
    ensures ZoneField(ZoneSwitch.UniqueId(entryId, zone)) == Some(zone)
  {
    var d := IntToDecimal(zone);
    var u := ZoneSwitch.UniqueId(entryId, zone);
    assert u == (entryId + "_" + d) + "_bypass";
    ContainsSuffix(entryId + "_" + d, "_bypass");
    UniqueIdFields(entryId, d);
    ParseIntRoundTrip(zone);
  }

  /** The `_`-fields of `entryId + "_" + d + "_bypass"` for a field `d` without `_`. */
  lemma UniqueIdFields(entryId: string, d: string)
    requires forall k :: 0 <= k < |d| ==> d[k] != '_'
    ensures Split(entryId + "_" + d + "_bypass", '_') == Split(entryId, '_') + [d, "bypass"]
  {
    var tail := d + ['_'] + "bypass";
    assert entryId + "_" + d + "_bypass" == entryId + ['_'] + tail;
    SplitAround(entryId, '_', tail);
    TwoFields(d, "bypass");
  }

  /** Two fields without `_`, joined by one `_`, split back into those two fields. */
  lemma TwoFields(d: string, e: string)
    requires forall k :: 0 <= k < |d| ==> d[k] != '_'
    requires forall k :: 0 <= k < |e| ==> e[k] != '_'
    ensures Split(d + ['_'] + e, '_') == [d, e]
  {
    SplitWithoutSeparator(d, '_');
    SplitWithoutSeparator(e, '_');
    SplitAround(d, '_', e);
  }
}
