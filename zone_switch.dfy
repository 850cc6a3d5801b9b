/**
 * The zone bypass switch: one switch per bypassable zone whose on/off flag
 * marks the zone to be bypassed at the next arming, with an icon that follows
 * the flag, and the platform setup that creates the switches.
 */
module ZoneSwitch {
  import opened Wrappers
  import opened Text

  const ShieldCheck := "mdi:shield-check"
  const ShieldOff := "mdi:shield-off"
  const DefaultZoneType := "door_window"

  /**
   * The configuration keys of one zone the switch reads; `None` is a key that
   * is absent from the zone's configuration dictionary.
   */
  datatype ZoneConfig = ZoneConfig(name: Option<string>, zoneType: Option<string>, bypassable: bool)

  /** The switch's own entries of `extra_state_attributes`. */
  datatype SwitchAttributes = SwitchAttributes(
    zoneNumber: int, zoneType: string, zoneName: string, markedForBypass: bool)

  /** Python truthiness of an optional string: present and non-empty. */
  predicate Truthy(s: Option<string>) { s.Some? && s.value != "" }

  /** The switch's unique id: entry id, zone number in decimal, and the `_bypass` suffix. */
  function UniqueId(entryId: string, zone: int): string
  {
    entryId + "_" + IntToDecimal(zone) + "_bypass"
  }

  /** The switch name: the configured zone name when it is truthy, else the zone number. */
  function DisplayName(name: Option<string>, zone: int): (n: string)
    ensures Truthy(name) ==> n == name.value + " Bypass"
    ensures !Truthy(name) ==> n == "Zone " + IntToDecimal(zone) + " Bypass"
  {
    if Truthy(name) then name.value + " Bypass" else "Zone " + IntToDecimal(zone) + " Bypass"
  }

  /** The attribute default for the zone name, used only when the key is missing. */
  function AttributeName(name: Option<string>, zone: int): string
  {
    if name.Some? then name.value else "Zone " + IntToDecimal(zone)
  }

  /**
   * The switch name is always the `zone_name` attribute followed by " Bypass",
   * except when the zone name is configured but empty: the name then falls
   * back to the zone number while the attribute stays empty.
   */
  lemma NameFollowsAttribute(name: Option<string>, zone: int)
    ensures name != Some("") <==> DisplayName(name, zone) == AttributeName(name, zone) + " Bypass"
  {
    if name == Some("") {
      var d := DisplayName(name, zone);
      assert d[0] == 'Z';
      assert (AttributeName(name, zone) + " Bypass")[0] == ' ';
    }
  }

  class BypassSwitch {
    const entryId: string
    const zoneNumber: int
    const zoneConfig: ZoneConfig
    const uniqueId: string
    const name: string
    var isBypassed: bool
    var icon: string

    /** The icon shows the shield as off exactly while the zone is marked for bypass. */
    ghost predicate Valid()
      reads this
    {
      icon == (if isBypassed then ShieldOff else ShieldCheck)
    }

    constructor(zoneNumber: int, zoneConfig: ZoneConfig, entryId: string)
      ensures Valid() && !isBypassed && icon == ShieldCheck
      ensures this.zoneNumber == zoneNumber && this.zoneConfig == zoneConfig && this.entryId == entryId
      ensures uniqueId == UniqueId(entryId, zoneNumber)
      ensures name == DisplayName(zoneConfig.name, zoneNumber)
    {
      this.entryId := entryId;
      this.zoneNumber := zoneNumber;
      this.zoneConfig := zoneConfig;
      uniqueId := entryId + "_" + IntToDecimal(zoneNumber) + "_bypass";
      icon := ShieldCheck;
      isBypassed := false;
      if Truthy(zoneConfig.name) {
        name := zoneConfig.name.value + " Bypass";
      } else {
        name := "Zone " + IntToDecimal(zoneNumber) + " Bypass";
      }
    }

    /** `is_on`: the bypass flag, which the icon of a valid switch also shows. */
    function IsOn(): (on: bool)
      requires Valid()
      reads this
      ensures on <==> icon == ShieldOff
    {
      isBypassed
    }

    /** `extra_state_attributes`: defaults apply only to keys missing from the zone config. */
    function ExtraStateAttributes(): (a: SwitchAttributes)
      reads this
      ensures a.zoneNumber == zoneNumber && a.markedForBypass == isBypassed
      ensures zoneConfig.zoneType == None ==> a.zoneType == DefaultZoneType
      ensures zoneConfig.zoneType.Some? ==> a.zoneType == zoneConfig.zoneType.value
      ensures zoneConfig.name == None ==> a.zoneName == "Zone " + IntToDecimal(zoneNumber)
      ensures zoneConfig.name == None || zoneConfig.name == Some(a.zoneName)
    {
      SwitchAttributes(
        zoneNumber,
        if zoneConfig.zoneType.Some? then zoneConfig.zoneType.value else DefaultZoneType,
        AttributeName(zoneConfig.name, zoneNumber),
        isBypassed)
    }

    /** `async_turn_on`: mark the zone for bypass. */
    method TurnOn()
      modifies this
      ensures Valid() && isBypassed && icon == ShieldOff
    {
      isBypassed := true;
      icon := ShieldOff;
    }

    /** `async_turn_off`: unmark the zone. */
    method TurnOff()
      modifies this
      ensures Valid() && !isBypassed && icon == ShieldCheck
    {
      isBypassed := false;
      icon := ShieldCheck;
    }

    /** `reset_bypass_state`: unmark a marked zone; an unmarked switch is left as it is. */
    method ResetBypassState()
      modifies this
      ensures !isBypassed
      ensures old(isBypassed) ==> icon == ShieldCheck
      ensures !old(isBypassed) ==> icon == old(icon)
      ensures old(Valid()) ==> Valid()
    {
      if isBypassed {
        isBypassed := false;
        icon := ShieldCheck;
      }
    }
  }

  /** The zones, in dictionary order, whose configuration marks them bypassable. */
  function BypassableZones(zones: seq<(int, ZoneConfig)>): (b: seq<(int, ZoneConfig)>)
    ensures |b| <= |zones|
  {
    if zones == [] then []
    else (if zones[0].1.bypassable then [zones[0]] else []) + BypassableZones(zones[1..])
  }

  /** A zone gets a switch exactly when it is in the dictionary and marked bypassable. */
  lemma {:induction false} BypassableZonesMembers(zones: seq<(int, ZoneConfig)>, p: (int, ZoneConfig))
    ensures p in BypassableZones(zones) <==> p in zones && p.1.bypassable
  {
    if zones != [] {
      BypassableZonesMembers(zones[1..], p);
      assert p in zones <==> p == zones[0] || p in zones[1..];
    }
  }

  /** Removing the zones that are not bypassable keeps the others in their order. */
  lemma {:induction false} BypassableZonesAppend(a: seq<(int, ZoneConfig)>, b: seq<(int, ZoneConfig)>)
    ensures BypassableZones(a + b) == BypassableZones(a) + BypassableZones(b)
  {
    if a == [] {
      assert a + b == b;
    } else {
      var h := if a[0].1.bypassable then [a[0]] else [];
      assert (a + b)[0] == a[0] && (a + b)[1..] == a[1..] + b;
      BypassableZonesAppend(a[1..], b);
      var x, y := BypassableZones(a[1..]), BypassableZones(b);
      assert BypassableZones(a + b) == h + (x + y);
      assert h + (x + y) == (h + x) + y;
    }
  }

  /** One more zone of the dictionary adds it to the bypassable zones exactly when it is bypassable. */
  lemma BypassableStep(zones: seq<(int, ZoneConfig)>, i: nat)
    requires i < |zones|
    ensures BypassableZones(zones[..i + 1])
      == BypassableZones(zones[..i]) + (if zones[i].1.bypassable then [zones[i]] else [])
  {
    BypassableZonesAppend(zones[..i], [zones[i]]);
    assert zones[..i + 1] == zones[..i] + [zones[i]];
    assert [zones[i]][1..] == [];
  }

  /**
   * The platform setup: one fresh, unmarked switch per bypassable zone, in the
   * order of the zone dictionary, each holding that zone's number and config.
   */
  method SetupSwitches(zones: seq<(int, ZoneConfig)>, entryId: string) returns (switches: seq<BypassSwitch>)
    ensures |switches| == |BypassableZones(zones)|
    ensures forall i :: 0 <= i < |switches| ==>
      fresh(switches[i]) && SetUpFor(switches[i], entryId, BypassableZones(zones)[i])
  {
    switches := [];
    ghost var made: seq<(int, ZoneConfig)> := [];
    for i := 0 to |zones|
      invariant made == BypassableZones(zones[..i]) && |switches| == |made|
      invariant forall j :: 0 <= j < |switches| ==> fresh(switches[j]) && SetUpFor(switches[j], entryId, made[j])
    {
      BypassableStep(zones, i);
      if zones[i].1.bypassable {
        var sw := NewSwitch(zones[i], entryId);
        switches := switches + [sw];
        made := made + [zones[i]];
      } else {
        assert made + [] == made;
      }
    }
    assert zones[..|zones|] == zones;
  }

  /** One switch of the setup, for one zone number and its config. */
  method NewSwitch(zone: (int, ZoneConfig), entryId: string) returns (sw: BypassSwitch)
    ensures fresh(sw) && SetUpFor(sw, entryId, zone)
  {
    sw := new BypassSwitch(zone.0, zone.1, entryId);
  }

  /** A switch as the setup leaves it: valid, unmarked, and holding its entry, zone, config and unique id. */
  ghost predicate SetUpFor(sw: BypassSwitch, entryId: string, zone: (int, ZoneConfig))
    reads sw
  {
    sw.Valid() && !sw.isBypassed && sw.entryId == entryId
    && (sw.zoneNumber, sw.zoneConfig) == zone && sw.uniqueId == UniqueId(entryId, sw.zoneNumber)
  }
}
