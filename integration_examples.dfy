/**
 * The integration scenarios of the bypass feature: an entity registry and a
 * state machine filled the way the panel finds them, the zones the scan
 * reads from them, and the bypass string those zones give.
 */
module IntegrationExamples {
  import opened Wrappers
  import opened Text
  import opened BypassEncoder
  import opened BypassZones
  import ZoneSwitch
  import FormatExamples

  /** Dictionary assignment on the registry: a new key goes last, an existing key keeps its place. */
  function Upsert(registry: Registry, entityId: string, entry: RegistryEntry): (r: Registry)
    ensures |r| == |registry| || |r| == |registry| + 1
  {
    if registry == [] then [(entityId, entry)]
    else if registry[0].0 == entityId then [(entityId, entry)] + registry[1..]
    else [registry[0]] + Upsert(registry[1..], entityId, entry)
  }

  /** The entry a registry holds for an entity id, the first one if several. */
  function Lookup(registry: Registry, entityId: string): Option<RegistryEntry>
  {
    if registry == [] then None
    else if registry[0].0 == entityId then Some(registry[0].1)
    else Lookup(registry[1..], entityId)
  }

  /** After an assignment the key holds the new entry and every other key keeps its own. */
  lemma {:induction false} UpsertLookup(registry: Registry, entityId: string, entry: RegistryEntry, other: string)
    ensures Lookup(Upsert(registry, entityId, entry), other)
      == if other == entityId then Some(entry) else Lookup(registry, other)
  {
    if registry != [] && registry[0].0 != entityId {
      UpsertLookup(registry[1..], entityId, entry, other);
    }
  }

  /** A key the registry does not hold yet is appended at the end. */
  lemma {:induction false} UpsertNewKey(registry: Registry, entityId: string, entry: RegistryEntry)
    requires Lookup(registry, entityId) == None
    ensures Upsert(registry, entityId, entry) == registry + [(entityId, entry)]
  {
    if registry != [] {
      UpsertNewKey(registry[1..], entityId, entry);
      assert registry == [registry[0]] + registry[1..];
    }
  }

  /** The test double of the entity registry. */
  class MockEntityRegistry {
    var entities: Registry

    constructor()
      ensures entities == []
    {
      entities := [];
    }

    method AddEntity(entityId: string, configEntryId: string, domain: string, uniqueId: string)
      modifies this
      ensures entities == Upsert(old(entities), entityId, RegistryEntry(configEntryId, domain, uniqueId))
    {
      entities := Upsert(entities, entityId, RegistryEntry(configEntryId, domain, uniqueId));
    }
  }

  /** The test double of the state machine. */
  class MockStates {
    var states: States

    constructor()
      ensures states == map[]
    {
      states := map[];
    }

    /** `get`: the state of an entity, `None` for an entity without one. */
    function Get(entityId: string): (s: Option<string>)
      reads this
      ensures s.Some? <==> entityId in states
      ensures s.Some? ==> s.value == states[entityId]
    {
      if entityId in states then Some(states[entityId]) else None
    }

    method SetState(entityId: string, state: string)
      modifies this
      ensures states == old(states)[entityId := state]
    {
      states := states[entityId := state];
    }
  }

  /** A bypass switch of the scanned entry contributes its zone exactly when it is on. */
  lemma SwitchContributes(entityId: string, entryId: string, zone: int, states: States)
    ensures ZoneOf((entityId, RegistryEntry(entryId, "switch", ZoneSwitch.UniqueId(entryId, zone))), states, entryId)
      == if IsOn(states, entityId) then Some(zone) else None
  {
    UniqueIdRoundTrip(entryId, zone);
  }

  /** The entity id the tests give the switch of a zone: `switch.zone_<n>_bypass`. */
  function EntityIdFor(zone: int): string
  {
    "switch.zone_" + IntToDecimal(zone) + "_bypass"
  }

  /** Different zones get different entity ids. */
  lemma EntityIdInjective(a: int, b: int)
    requires EntityIdFor(a) == EntityIdFor(b)
    ensures a == b
  {
    var p := "switch.zone_";
    var da, db := IntToDecimal(a), IntToDecimal(b);
    var x := EntityIdFor(a);
    assert |da| == |db|;
    assert x[|p|..|p| + |da|] == da;
    assert EntityIdFor(b)[|p|..|p| + |db|] == db;
    ParseIntRoundTrip(a);
    ParseIntRoundTrip(b);
  }

  /** The registry item of the switch of `zone` in config entry `entryId`. */
  function SwitchItem(entryId: string, zone: int): (string, RegistryEntry)
  {
    (EntityIdFor(zone), RegistryEntry(entryId, "switch", ZoneSwitch.UniqueId(entryId, zone)))
  }

  /** The registry items of one switch per zone of config entry `entryId`, in order. */
  function SwitchRegistry(entryId: string, zones: seq<int>): (r: Registry)
    ensures |r| == |zones|
  {
    if zones == [] then [] else [SwitchItem(entryId, zones[0])] + SwitchRegistry(entryId, zones[1..])
  }

  /** The zones of `zones` that are in `active`, in the order of `zones`. */
  function ActiveInOrder(zones: seq<int>, active: seq<int>): seq<int>
  {
    if zones == [] then []
    else (if zones[0] in active then [zones[0]] else []) + ActiveInOrder(zones[1..], active)
  }

  /** No zone is listed twice. */
  predicate Distinct(zones: seq<int>)
  {
    forall i, j :: 0 <= i < j < |zones| ==> zones[i] != zones[j]
  }

  /** The state each switch of the scenario is given. */
  predicate StatesSet(states: States, zones: seq<int>, active: seq<int>)
  {
    forall z :: z in zones ==> EntityIdFor(z) in states && states[EntityIdFor(z)] == (if z in active then "on" else "off")
  }

  /** No entity of the registry has the id of a zone outside `zones`. */
  lemma {:induction false} LookupOutside(entryId: string, zones: seq<int>, z: int)
    requires z !in zones
    ensures Lookup(SwitchRegistry(entryId, zones), EntityIdFor(z)) == None
  {
    if zones != [] {
      assert zones[0] != z;
      if EntityIdFor(zones[0]) == EntityIdFor(z) {
        EntityIdInjective(zones[0], z);
      }
      LookupOutside(entryId, zones[1..], z);
    }
  }

  /** The scan of the scenario's registry reads back exactly the active zones, in registry order. */
  lemma {:induction false} ScanOfSwitchRegistry(entryId: string, zones: seq<int>, active: seq<int>, states: States)
    requires StatesSet(states, zones, active)
    ensures SelectedZones(SwitchRegistry(entryId, zones), states, entryId) == ActiveInOrder(zones, active)
  {
    if zones != [] {
      var z := zones[0];
      var item, rest := SwitchItem(entryId, z), SwitchRegistry(entryId, zones[1..]);
      assert StatesSet(states, zones[1..], active);
      ScanOfSwitchRegistry(entryId, zones[1..], active, states);
      SelectedZonesAppend([item], rest, states, entryId);
      SelectedSingle(item, states, entryId);
      SwitchContributes(EntityIdFor(z), entryId, z, states);
    }
  }

  /** One more zone in the setup loop appends one more switch. */
  lemma {:induction false} SwitchRegistryStep(entryId: string, zones: seq<int>, zone: int)
    ensures SwitchRegistry(entryId, zones + [zone]) == SwitchRegistry(entryId, zones) + [SwitchItem(entryId, zone)]
  {
    if zones == [] {
      assert [] + [zone] == [zone];
    } else {
      assert (zones + [zone])[1..] == zones[1..] + [zone];
      SwitchRegistryStep(entryId, zones[1..], zone);
    }
  }

  /** Setting the state of a new zone's switch keeps the states of the earlier ones. */
  lemma StatesSetStep(states: States, zones: seq<int>, active: seq<int>, zone: int)
    requires StatesSet(states, zones, active) && zone !in zones
    ensures StatesSet(states[EntityIdFor(zone) := if zone in active then "on" else "off"], zones + [zone], active)
  {
    var s := states[EntityIdFor(zone) := if zone in active then "on" else "off"];
    forall z | z in zones + [zone]
      ensures EntityIdFor(z) in s && s[EntityIdFor(z)] == (if z in active then "on" else "off")
    {
      if z != zone && EntityIdFor(z) == EntityIdFor(zone) {
        EntityIdInjective(z, zone);
      }
    }
  }

  /** The zone the setup loop reaches at step `i` was not set up before. */
  lemma NewZone(zones: seq<int>, i: nat)
    requires Distinct(zones) && i < |zones|
    ensures zones[i] !in zones[..i]
  {
    assert forall j :: 0 <= j < i ==> zones[..i][j] == zones[j];
  }

  /**
   * The tests' setup loop: for each zone, register its switch and set it
   * `"on"` when the zone is active, `"off"` otherwise.
   */
  method AddZoneSwitches(registry: MockEntityRegistry, hass: MockStates, entryId: string,
                         zones: seq<int>, active: seq<int>)
    requires registry.entities == [] && hass.states == map[]
    requires Distinct(zones)
    modifies registry, hass
    ensures registry.entities == SwitchRegistry(entryId, zones)
    ensures StatesSet(hass.states, zones, active)
  {
    for i := 0 to |zones|
      invariant registry.entities == SwitchRegistry(entryId, zones[..i])
      invariant StatesSet(hass.states, zones[..i], active)
    {
      var zone := zones[i];
      SetupStep(registry.entities, hass.states, entryId, zones, i, active);
      registry.AddEntity(EntityIdFor(zone), entryId, "switch", ZoneSwitch.UniqueId(entryId, zone));
      hass.SetState(EntityIdFor(zone), if zone in active then "on" else "off");
    }
    assert zones[..|zones|] == zones;
  }

  /** One iteration of the setup loop keeps both the registry and the states in step. */
  lemma SetupStep(entities: Registry, states: States, entryId: string, zones: seq<int>, i: nat, active: seq<int>)
    requires Distinct(zones) && i < |zones|
    requires entities == SwitchRegistry(entryId, zones[..i])
    requires StatesSet(states, zones[..i], active)
    ensures Upsert(entities, EntityIdFor(zones[i]), RegistryEntry(entryId, "switch", ZoneSwitch.UniqueId(entryId, zones[i])))
      == SwitchRegistry(entryId, zones[..i + 1])
    ensures StatesSet(states[EntityIdFor(zones[i]) := if zones[i] in active then "on" else "off"], zones[..i + 1], active)
  {
    var zone := zones[i];
    assert zones[..i + 1] == zones[..i] + [zone];
    NewZone(zones, i);
    LookupOutside(entryId, zones[..i], zone);
    UpsertNewKey(entities, EntityIdFor(zone), SwitchItem(entryId, zone).1);
    SwitchRegistryStep(entryId, zones[..i], zone);
    StatesSetStep(states, zones[..i], active, zone);
  }

  /** One more zone appends it to the active zones when it is active. */
  lemma {:induction false} ActiveStep(zones: seq<int>, active: seq<int>, zone: int)
    ensures ActiveInOrder(zones + [zone], active)
      == ActiveInOrder(zones, active) + (if zone in active then [zone] else [])
  {
    if zones == [] {
      assert [] + [zone] == [zone];
      assert ActiveInOrder([zone], active) == (if zone in active then [zone] else []) + [];
    } else {
      var h := if zones[0] in active then [zones[0]] else [];
      var t := if zone in active then [zone] else [];
      var a := ActiveInOrder(zones[1..], active);
      assert (zones + [zone])[0] == zones[0];
      assert (zones + [zone])[1..] == zones[1..] + [zone];
      ActiveStep(zones[1..], active, zone);
      assert ActiveInOrder(zones + [zone], active) == h + (a + t);
      assert h + (a + t) == h + a + t;
    }
  }

  /** When every zone is active, all of them are read back, in order. */
  lemma {:induction false} AllActive(zones: seq<int>, active: seq<int>)
    requires forall i :: 0 <= i < |zones| ==> zones[i] in active
    ensures ActiveInOrder(zones, active) == zones
  {
    if zones != [] {
      assert forall i :: 0 <= i < |zones| - 1 ==> zones[1..][i] == zones[i + 1];
      AllActive(zones[1..], active);
      assert zones == [zones[0]] + zones[1..];
    }
  }

  const EntryId := "test_entry_123"

  /**
   * A scenario over fresh doubles: set up the switches, scan, and build the
   * bypass string; `expected` is the sorted list of the active zones.
   */
  method RunScenario(zones: seq<int>, active: seq<int>, expected: seq<int>) returns (found: seq<int>, command: string)
    requires Distinct(zones)
    requires ActiveInOrder(zones, active) == expected && Sorted(expected)
    ensures found == expected
    ensures command == BuildBypassString(expected, "1234")
  {
    var registry := new MockEntityRegistry();
    var hass := new MockStates();
    AddZoneSwitches(registry, hass, EntryId, zones, active);
    found := ExtractBypassZones(registry.entities, hass.states, EntryId);
    ScanOfSwitchRegistry(EntryId, zones, active, hass.states);
    SortSorted(expected);
    command := BuildBypassString(found, "1234");
  }

  /** With no switch registered, no zone is bypassed and no string is sent. */
  method NoBypassZonesActive() returns (zones: seq<int>, command: string)
    ensures zones == [] && command == ""
  {
    var registry := new MockEntityRegistry();
    var hass := new MockStates();
    zones := ExtractBypassZones(registry.entities, hass.states, EntryId);
    command := BuildBypassString(zones, "1234");
  }

  /** Zone lists in strictly increasing order, as the tests write them. */
  predicate Increasing(zones: seq<int>)
  {
    forall i, j :: 0 <= i < j < |zones| ==> zones[i] < zones[j]
  }

  /** An increasing list has no repeats, is sorted, and is all read back when every zone is on. */
  lemma IncreasingAllOn(zones: seq<int>)
    requires Increasing(zones)
    ensures Distinct(zones) && Sorted(zones) && ActiveInOrder(zones, zones) == zones
  {
    AllActive(zones, zones);
  }

  /** The scenario with every listed switch on: the zones come back as listed. */
  method RunAllOn(zones: seq<int>) returns (found: seq<int>, command: string)
    requires Increasing(zones)
    ensures found == zones && command == BuildBypassString(zones, "1234")
  {
    IncreasingAllOn(zones);
    found, command := RunScenario(zones, zones, zones);
  }

  /** The switch of zone 1, on, gives zone 1. */
  method SingleBypassZoneActive() returns (zones: seq<int>, command: string)
    ensures zones == [1] && command == "123461*"
  {
    zones, command := RunAllOn([1]);
    FormatExamples.Zones1();
  }

  /** Zones 1, 5 and 12, all on, are read back in order. */
  method MultipleBypassZonesActive() returns (zones: seq<int>, command: string)
    ensures zones == [1, 5, 12] && command == "123461512*"
  {
    zones, command := RunAllOn([1, 5, 12]);
    Zones1And5And12();
  }

  /** One, two and three-digit zones, all on. */
  method MixedZoneDigits() returns (zones: seq<int>, command: string)
    ensures zones == [1, 15, 100] && command == "12346115100*"
  {
    zones, command := RunAllOn([1, 15, 100]);
    Zones1And15And100();
  }

  /** With only zones 1, 3 and 5 of five switches on, the zones are [1, 3, 5]. */
  method InactiveSwitchesScenario() returns (zones: seq<int>, command: string)
    ensures zones == [1, 3, 5] && command == "12346135*"
  {
    OneToFive();
    zones, command := RunScenario([1, 2, 3, 4, 5], [1, 3, 5], [1, 3, 5]);
    Zones1And3And5();
  }

  /** The bypass string of the arming sequence for zone 5. */
  method ArmCommandSequence() returns (bypassCommand: string)
    ensures bypassCommand == "123465*"
  {
    var zones;
    zones, bypassCommand := RunAllOn([5]);
    FormatExamples.Zones5();
  }

  /** A registry holding the single switch `entityId`, turned on, yields its zone. */
  lemma OneSwitchOn(entityId: string, entryId: string, zone: int)
    ensures ZonesToBypass([(entityId, RegistryEntry(entryId, "switch", ZoneSwitch.UniqueId(entryId, zone)))],
                          map[entityId := "on"], entryId) == [zone]
  {
    var item := (entityId, RegistryEntry(entryId, "switch", ZoneSwitch.UniqueId(entryId, zone)));
    SelectedSingle(item, map[entityId := "on"], entryId);
    SwitchContributes(entityId, entryId, zone, map[entityId := "on"]);
    SortSorted([zone]);
  }

  /**
   * A zone configured as `01` keeps the entity id it was given, but its
   * unique id carries the integer 1, so the scan reads zone 1.
   */
  method ZoneZeroOneConfiguration() returns (zones: seq<int>, command: string)
    ensures zones == [1] && command == "123461*"
  {
    var registry := new MockEntityRegistry();
    var hass := new MockStates();
    var entityId := "switch.zone_01_bypass";
    registry.AddEntity(entityId, EntryId, "switch", ZoneSwitch.UniqueId(EntryId, 1));
    hass.SetState(entityId, "on");
    OneSwitchOn(entityId, EntryId, 1);
    zones := ExtractBypassZones(registry.entities, hass.states, EntryId);
    command := BuildBypassString(zones, "1234");
    FormatExamples.Zones1();
  }

  /** An item of another config entry contributes nothing, whatever its state. */
  lemma OtherEntryNone(item: (string, RegistryEntry), states: States, entryId: string)
    requires item.1.configEntryId != entryId
    ensures ZoneOf(item, states, entryId) == None
  {
  }

  /** Of a switch that is on and one of another entry, only the first one's zone is read. */
  lemma TwoEntriesScan(first: (string, RegistryEntry), second: (string, RegistryEntry), states: States,
                       entryId: string, zone: int)
    requires first.1 == RegistryEntry(entryId, "switch", ZoneSwitch.UniqueId(entryId, zone))
    requires IsOn(states, first.0) && second.1.configEntryId != entryId
    ensures ZonesToBypass([first, second], states, entryId) == [zone]
  {
    OtherEntryNone(second, states, entryId);
    SkippedItem([first], second, [], states, entryId);
    assert [first] + [second] + [] == [first, second];
    assert [first] + [] == [first];
    SelectedSingle(first, states, entryId);
    SwitchContributes(first.0, entryId, zone, states);
    SortSorted([zone]);
  }

  /**
   * Two switches, both on: `id1` of the scanned entry and `id2` of another
   * entry. Only the first one's zone is read.
   */
  method TwoEntriesScenario(entryId: string, otherEntryId: string, id1: string, id2: string, zone1: int, zone2: int)
    returns (zones: seq<int>, command: string)
    requires entryId != otherEntryId && id1 != id2
    ensures zones == [zone1] && command == BuildBypassString([zone1], "1234")
  {
    var registry := new MockEntityRegistry();
    var hass := new MockStates();
    registry.AddEntity(id1, entryId, "switch", ZoneSwitch.UniqueId(entryId, zone1));
    hass.SetState(id1, "on");
    registry.AddEntity(id2, otherEntryId, "switch", ZoneSwitch.UniqueId(otherEntryId, zone2));
    hass.SetState(id2, "on");
    var first := (id1, RegistryEntry(entryId, "switch", ZoneSwitch.UniqueId(entryId, zone1)));
    var second := (id2, RegistryEntry(otherEntryId, "switch", ZoneSwitch.UniqueId(otherEntryId, zone2)));
    assert registry.entities == [first, second] by {
      assert Lookup([first], id2) == None;
      UpsertNewKey([first], id2, second.1);
    }
    TwoEntriesScan(first, second, hass.states, entryId, zone1);
    zones := ExtractBypassZones(registry.entities, hass.states, entryId);
    command := BuildBypassString(zones, "1234");
  }

  /** Switches of two config entries, both on: only the scanned entry's zone is read. */
  method DifferentConfigEntries() returns (zones: seq<int>, command: string)
    ensures zones == [1] && command == "123461*"
  {
    var otherEntryId := "other_entry_456";
    var entityId1, entityId2 := "switch.zone_1_bypass", "switch.zone_2_bypass_other";
    assert |otherEntryId| != |EntryId| && |entityId1| != |entityId2|;
    zones, command := TwoEntriesScenario(EntryId, otherEntryId, entityId1, entityId2, 1, 2);
    FormatExamples.Zones1();
  }

  lemma OneToFive()
    ensures Distinct([1, 2, 3, 4, 5])
    ensures ActiveInOrder([1, 2, 3, 4, 5], [1, 3, 5]) == [1, 3, 5]
    ensures Sorted([1, 3, 5])
  {
    OneToFiveDistinct();
    OddOfFive();
    OddSorted();
  }

  lemma OneToFiveDistinct() ensures Distinct([1, 2, 3, 4, 5]) {}
  lemma OddSorted() ensures Sorted([1, 3, 5]) {}
  lemma OddOfFive() ensures ActiveInOrder([1, 2, 3, 4, 5], [1, 3, 5]) == [1, 3, 5] {}

  lemma Zones1And3And5() ensures BuildBypassString([1, 3, 5], "1234") == "12346135*" {}
  lemma Zones1And5And12() ensures BuildBypassString([1, 5, 12], "1234") == "123461512*" {}
  lemma Zones1And15And100() ensures BuildBypassString([1, 15, 100], "1234") == "12346115100*" {}

  // ---------------------------------------------------------------------------
  // Zone numbers configured with leading zeros
  // ---------------------------------------------------------------------------

  /** `s.lstrip('0')`: the string without its leading zeros. */
  function LStripZeros(s: string): (r: string)
    ensures |r| <= |s| && r == s[|s| - |r|..]
    ensures r == "" || r[0] != '0'
    ensures forall i :: 0 <= i < |s| - |r| ==> s[i] == '0'
  {
    if s != [] && s[0] == '0' then LStripZeros(s[1..]) else s
  }

  /** The tests' reading of a configured zone: `int(config.lstrip('0') or '0')`. */
  function ProcessedZone(config: string): Option<int>
  {
    var stripped := LStripZeros(config);
    ParseInt(if stripped == "" then "0" else stripped)
  }

  /** Stripping the leading zeros of a digit string keeps its value. */
  lemma {:induction false} StrippedValue(config: string)
    requires AllDigits(config)
    ensures AllDigits(LStripZeros(config)) && DecimalValue(LStripZeros(config)) == DecimalValue(config)
  {
    if config != [] && config[0] == '0' {
      var rest := config[1..];
      assert config == "0" + rest;
      StrippedValue(rest);
      LeadingZeroIgnored(rest);
    }
  }

  /** On a non-empty digit string that reading agrees with `int(config)`. */
  lemma ProcessedZoneIsInt(config: string)
    requires config != "" && AllDigits(config)
    ensures ProcessedZone(config) == ParseInt(config)
  {
    var stripped := LStripZeros(config);
    StrippedValue(config);
    ParseDigits(config);
    if stripped == "" {
      ParseDigits("0");
    } else {
      ParseDigits(stripped);
    }
  }

  /** `n` zeros. */
  function Zeros(n: nat): (z: string)
    ensures |z| == n && AllDigits(z)
  {
    if n == 0 then "" else "0" + Zeros(n - 1)
  }

  /** Any number of leading zeros before a digit string leave its value. */
  lemma {:induction false} ZeroPadded(pad: nat, d: string)
    requires AllDigits(d)
    ensures AllDigits(Zeros(pad) + d) && DecimalValue(Zeros(pad) + d) == DecimalValue(d)
  {
    if pad == 0 {
      assert Zeros(0) + d == d;
    } else {
      var t := Zeros(pad - 1) + d;
      ZeroPadded(pad - 1, d);
      assert Zeros(pad) + d == "0" + t;
      LeadingZeroIgnored(t);
    }
  }

  /** A configured zone written as `pad` zeros and the zone number reads as that zone. */
  lemma ConfigFormat(config: string, pad: nat, zone: nat)
    requires config == Zeros(pad) + NatToDecimal(zone)
    ensures ProcessedZone(config) == Some(zone)
  {
    ZeroPadded(pad, NatToDecimal(zone));
    DecimalRoundTrip(zone);
    ProcessedZoneIsInt(config);
    ParseDigits(config);
  }

  /** The eight configured forms and the strings their zones give. */
  lemma ZoneConfigurationFormats()
    ensures ProcessedZone("1") == Some(1) && ProcessedZone("01") == Some(1)
    ensures ProcessedZone("5") == Some(5) && ProcessedZone("05") == Some(5)
    ensures ProcessedZone("10") == Some(10) && ProcessedZone("010") == Some(10)
    ensures ProcessedZone("15") == Some(15) && ProcessedZone("100") == Some(100)
    ensures BuildBypassString([1], "1234") == "123461*" && BuildBypassString([5], "1234") == "123465*"
    ensures BuildBypassString([10], "1234") == "1234610*" && BuildBypassString([15], "1234") == "1234615*"
    ensures BuildBypassString([100], "1234") == "12346100*"
  {
    Config1(); Config01(); Config5(); Config05(); Config10(); Config010(); Config15(); Config100();
    FormatExamples.Zones1(); FormatExamples.Zones5(); FormatExamples.Zones10();
    FormatExamples.Zones15(); FormatExamples.Zones100();
  }

  lemma Config1() ensures ProcessedZone("1") == Some(1) { ConfigFormat("1", 0, 1); }
  lemma Config01() ensures ProcessedZone("01") == Some(1) { ConfigFormat("01", 1, 1); }
  lemma Config5() ensures ProcessedZone("5") == Some(5) { ConfigFormat("5", 0, 5); }
  lemma Config05() ensures ProcessedZone("05") == Some(5) { ConfigFormat("05", 1, 5); }
  lemma Config10() ensures ProcessedZone("10") == Some(10) { ConfigFormat("10", 0, 10); }
  lemma Config010() ensures ProcessedZone("010") == Some(10) { ConfigFormat("010", 1, 10); }
  lemma Config15() ensures ProcessedZone("15") == Some(15) { ConfigFormat("15", 0, 15); }
  lemma Config100() ensures ProcessedZone("100") == Some(100) { ConfigFormat("100", 0, 100); }
}
