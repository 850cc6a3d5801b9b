/**
 * The alarm panel entity of one keypad address: it follows the panel's
 * status messages addressed to its keypad, and turns arm, disarm, chime and
 * keypress requests into commands for the AlarmDecoder client, bypassing the
 * zones whose bypass switch is on before it arms.
 */
module AlarmPanel {
  import opened Wrappers
  import opened Text
  import opened BypassEncoder
  import opened KeypadDecoder
  import opened BypassZones

  datatype AlarmState = Disarmed | ArmedHome | ArmedAway | Triggered

  /** The fields of a decoded panel message the entity reads. */
  datatype PanelMessage = PanelMessage(
    raw: string,
    alarmSounding: bool, fireAlarm: bool, armedAway: bool, armedHome: bool,
    acPower: bool, alarmEventOccurred: bool, backlightOn: bool, batteryLow: bool,
    checkZone: bool, chimeOn: bool, entryDelayOff: bool, programmingMode: bool,
    ready: bool, zoneBypassed: bool)

  /** `extra_state_attributes` of the panel. */
  datatype PanelAttributes = PanelAttributes(
    acPower: bool, alarmEventOccurred: bool, backlightOn: bool, batteryLow: bool,
    checkZone: bool, chime: bool, entryDelayOff: bool, programmingMode: bool,
    ready: bool, zoneBypassed: bool)

  /**
   * What the client is asked to do: send a keystroke string, or arm through
   * the client library's own arm routines, whose keystrokes are not modelled.
   */
  datatype Command =
    | Keys(keys: string)
    | ArmAwayCall(code: Option<string>, codeArmRequired: bool, autoBypass: bool)
    | ArmHomeCall(code: Option<string>, codeArmRequired: bool, autoBypass: bool)

  // ---------------------------------------------------------------------------
  // Alarm state of a message
  // ---------------------------------------------------------------------------

  /** The alarm state a message targeted at this keypad sets. */
  function StateFor(m: PanelMessage): AlarmState
  {
    if m.alarmSounding || m.fireAlarm then Triggered
    else if m.armedAway then ArmedAway
    else if m.armedHome then ArmedHome
    else Disarmed
  }

  /** The message flags that call for each state; disarmed needs none. */
  predicate Indicates(m: PanelMessage, s: AlarmState)
  {
    match s
    case Triggered => m.alarmSounding || m.fireAlarm
    case ArmedAway => m.armedAway
    case ArmedHome => m.armedHome
    case Disarmed => true
  }

  /** Triggered outranks armed away, which outranks armed home, which outranks disarmed. */
  function Rank(s: AlarmState): nat
  {
    match s
    case Disarmed => 0
    case ArmedHome => 1
    case ArmedAway => 2
    case Triggered => 3
  }

  /** The state chosen is the highest-ranked state the message's flags call for. */
  lemma StateIsHighestIndicated(m: PanelMessage)
    ensures Indicates(m, StateFor(m))
    ensures forall s :: Indicates(m, s) ==> Rank(s) <= Rank(StateFor(m))
  {
  }

  function AttributesOf(m: PanelMessage): PanelAttributes
  {
    PanelAttributes(m.acPower, m.alarmEventOccurred, m.backlightOn, m.batteryLow,
      m.checkZone, m.chimeOn, m.entryDelayOff, m.programmingMode, m.ready, m.zoneBypassed)
  }

  /** No decodable message can address a keypad outside 0..31. */
  lemma OutOfRangeAddressNeverTargeted(raw: string, address: int)
    requires address < 0 || address >= 32
    ensures KeypadAddresses(raw).Ok? ==> address !in KeypadAddresses(raw).value
  {
    if raw != "" && raw[0] == '[' && IsHexString(StatusField(raw)) {
      AddressesOfStatusMessage(raw);
    }
  }

  // ---------------------------------------------------------------------------
  // Commands
  // ---------------------------------------------------------------------------

  /** Python truthiness of an optional code. */
  predicate Truthy(code: Option<string>) { code.Some? && code.value != "" }

  /** `code or ""`. */
  function CodeOrEmpty(code: Option<string>): string
  {
    if Truthy(code) then code.value else ""
  }

  /** The code followed by one function key, sent only when the code is truthy. */
  function CodeThenKey(code: Option<string>, key: char): seq<Command>
  {
    if Truthy(code) then [Keys(code.value + [key])] else []
  }

  function DisarmCommands(code: Option<string>): seq<Command> { CodeThenKey(code, '1') }

  function ChimeCommands(code: Option<string>): seq<Command> { CodeThenKey(code, '9') }

  function KeypressCommands(keypress: string): seq<Command>
  {
    if keypress != "" then [Keys(keypress)] else []
  }

  /** The bypass keystrokes when there are zones to bypass, then the arm call. */
  function ArmCommands(zones: seq<int>, code: Option<string>, arm: Command): seq<Command>
  {
    BypassCommands(zones, code) + [arm]
  }

  /** The bypass keystrokes alone: none when there is no zone to bypass. */
  function BypassCommands(zones: seq<int>, code: Option<string>): seq<Command>
  {
    if zones != [] then [Keys(BuildBypassString(zones, CodeOrEmpty(code)))] else []
  }

  /** Appending two batches of commands one after the other. */
  lemma AppendInTurn(before: seq<Command>, first: seq<Command>, arm: Command, after: seq<Command>)
    requires after == before + first + [arm]
    ensures after == before + (first + [arm])
  {
  }

  /**
   * A disarm or chime request sends exactly one keystroke string, the code and
   * the function key, when the code is truthy, and nothing otherwise.
   */
  lemma CodeThenKeyShape(code: Option<string>, key: char)
    ensures |CodeThenKey(code, key)| == (if Truthy(code) then 1 else 0)
    ensures Truthy(code) ==> var k := CodeThenKey(code, key)[0];
      k.Keys? && |k.keys| == |code.value| + 1 && k.keys[..|code.value|] == code.value
      && k.keys[|code.value|] == key
  {
    if Truthy(code) {
      var k := CodeThenKey(code, key)[0];
      assert k.keys[..|code.value|] == code.value;
    }
  }

  /** A keypress is sent verbatim and alone, and an empty keypress sends nothing. */
  lemma KeypressShape(keypress: string)
    ensures KeypressCommands(keypress) == [] <==> keypress == ""
    ensures forall c :: c in KeypressCommands(keypress) ==> c == Keys(keypress)
  {
  }

  /**
   * Arming sends the bypass string first exactly when there are zones to
   * bypass, and always ends with the arm call; the only keystrokes it sends
   * are that bypass string, so the `code + "3"` arm-home sequence the source
   * builds is never sent by the entity itself.
   */
  lemma ArmCommandsShape(zones: seq<int>, code: Option<string>, arm: Command)
    requires !arm.Keys?
    ensures var cmds := ArmCommands(zones, code, arm);
      && |cmds| == (if zones == [] then 1 else 2)
      && cmds[|cmds| - 1] == arm
      && (cmds[0].Keys? <==> zones != [])
      && (forall c :: c in cmds && c.Keys? ==>
            c.keys == BuildBypassString(zones, CodeOrEmpty(code)) && c.keys[|c.keys| - 1] == '*')
  {
  }

  // ---------------------------------------------------------------------------
  // The client and the entity
  // ---------------------------------------------------------------------------

  /** The AlarmDecoder client, as the log of what it has been asked to do. */
  class Client {
    const serialNumber: string
    var sent: seq<Command>

    constructor(serialNumber: string)
      ensures this.serialNumber == serialNumber && sent == []
    {
      this.serialNumber := serialNumber;
      sent := [];
    }

    method Send(keys: string)
      modifies this
      ensures sent == old(sent) + [Keys(keys)]
    {
      sent := sent + [Keys(keys)];
    }

    method ArmAway(code: Option<string>, codeArmRequired: bool, autoBypass: bool)
      modifies this
      ensures sent == old(sent) + [ArmAwayCall(code, codeArmRequired, autoBypass)]
    {
      sent := sent + [ArmAwayCall(code, codeArmRequired, autoBypass)];
    }

    method ArmHome(code: Option<string>, codeArmRequired: bool, autoBypass: bool)
      modifies this
      ensures sent == old(sent) + [ArmHomeCall(code, codeArmRequired, autoBypass)]
    {
      sent := sent + [ArmHomeCall(code, codeArmRequired, autoBypass)];
    }
  }

  class Panel {
    const client: Client
    const uniqueId: string
    const autoBypass: bool
    const codeArmRequired: bool
    const address: int
    const entryId: string
    var alarmState: Option<AlarmState>
    var extraAttributes: Option<PanelAttributes>

    constructor(client: Client, autoBypass: bool, codeArmRequired: bool, address: int, entryId: string)
      ensures this.client == client && uniqueId == client.serialNumber + "-panel"
      ensures this.autoBypass == autoBypass && this.codeArmRequired == codeArmRequired
      ensures this.address == address && this.entryId == entryId
      ensures alarmState == None && extraAttributes == None
    {
      this.client := client;
      uniqueId := client.serialNumber + "-panel";
      this.autoBypass := autoBypass;
      this.codeArmRequired := codeArmRequired;
      this.address := address;
      this.entryId := entryId;
      alarmState := None;
      extraAttributes := None;
    }

    /**
     * `_message_callback`: a message that does not address this keypad leaves
     * the entity as it is (`Ok(false)`); one that does sets the alarm state and
     * the attributes (`Ok(true)`); a message the decoder rejects raises, which
     * `Err` stands for, and changes nothing.
     */
    method MessageCallback(message: PanelMessage) returns (outcome: Result<bool, DecodeError>)
      modifies this
      ensures var k := KeypadAddresses(message.raw);
        && (k.Err? ==> outcome == Err(k.error) && unchanged(this))
        && (k.Ok? && address !in k.value ==> outcome == Ok(false) && unchanged(this))
        && (k.Ok? && address in k.value ==>
              outcome == Ok(true)
              && alarmState == Some(StateFor(message))
              && extraAttributes == Some(AttributesOf(message)))
    {
      var keypads := ExtractKeypadAddresses(message.raw);
      if keypads.Err? {
        return Err(keypads.error);
      }
      if address !in keypads.value {
        return Ok(false);
      }
      if message.alarmSounding || message.fireAlarm {
        alarmState := Some(Triggered);
      } else if message.armedAway {
        alarmState := Some(ArmedAway);
      } else if message.armedHome {
        alarmState := Some(ArmedHome);
      } else {
        alarmState := Some(Disarmed);
      }
      extraAttributes := Some(PanelAttributes(
        message.acPower, message.alarmEventOccurred, message.backlightOn, message.batteryLow,
        message.checkZone, message.chimeOn, message.entryDelayOff, message.programmingMode,
        message.ready, message.zoneBypassed));
      return Ok(true);
    }

    /** `alarm_disarm`: the code and `1`, when there is a code. */
    method AlarmDisarm(code: Option<string>)
      modifies client
      ensures client.sent == old(client.sent) + DisarmCommands(code)
    {
      if code.Some? && code.value != "" {
        client.Send(code.value + "1");
      }
    }

    /** The bypass step shared by both arming services: one keystroke string when there are zones. */
    method SendBypass(bypassZones: seq<int>, code: Option<string>)
      modifies client
      ensures client.sent == old(client.sent) + BypassCommands(bypassZones, code)
    {
      if bypassZones != [] {
        var bypassCommand := BuildBypassString(bypassZones, if code.Some? && code.value != "" then code.value else "");
        client.Send(bypassCommand);
      } else {
        assert old(client.sent) + [] == old(client.sent);
      }
    }

    /** `alarm_arm_away`: bypass the zones whose switch is on, then arm away. */
    method AlarmArmAway(code: Option<string>, registry: Registry, states: States)
      modifies client
      ensures client.sent == old(client.sent)
        + ArmCommands(ZonesToBypass(registry, states, entryId), code,
                      ArmAwayCall(code, codeArmRequired, autoBypass))
    {
      var bypassZones := ExtractBypassZones(registry, states, entryId);
      SendBypass(bypassZones, code);
      client.ArmAway(code, codeArmRequired, autoBypass);
      AppendInTurn(old(client.sent), BypassCommands(bypassZones, code), ArmAwayCall(code, codeArmRequired, autoBypass), client.sent);
    }

    /** `alarm_arm_home`: bypass the zones whose switch is on, then arm home. */
    method AlarmArmHome(code: Option<string>, registry: Registry, states: States)
      modifies client
      ensures client.sent == old(client.sent)
        + ArmCommands(ZonesToBypass(registry, states, entryId), code,
                      ArmHomeCall(code, codeArmRequired, autoBypass))
    {
      var bypassZones := ExtractBypassZones(registry, states, entryId);
      SendBypass(bypassZones, code);
      client.ArmHome(code, codeArmRequired, autoBypass);
      AppendInTurn(old(client.sent), BypassCommands(bypassZones, code), ArmHomeCall(code, codeArmRequired, autoBypass), client.sent);
    }

    /** `alarm_toggle_chime`: the code and `9`, when there is a code. */
    method AlarmToggleChime(code: Option<string>)
      modifies client
      ensures client.sent == old(client.sent) + ChimeCommands(code)
    {
      if code.Some? && code.value != "" {
        client.Send(code.value + "9");
      }
    }

    /** `alarm_keypress`: the keys as given, unless there are none. */
    method AlarmKeypress(keypress: string)
      modifies client
      ensures client.sent == old(client.sent) + KeypressCommands(keypress)
    {
      if keypress != "" {
        client.Send(keypress);
      }
    }
  }
}
