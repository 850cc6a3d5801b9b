# AlarmDecoder zone bypass and keypad routing, in Dafny

This project models the zone-bypass and keypad-routing core of the
`custom_alarmdecoder` Home Assistant integration. It covers four parts:

- **Bypass command encoder** (`BypassEncoder`). For a list of zone numbers and an
  access code it builds the keystroke string `code + "6" + zone digits + "*"`.
  An empty zone list gives the empty string.
- **Keypad address decoder** (`KeypadDecoder`). For a raw panel message it finds
  the keypad addresses the message is meant for.
  - It reads the hexadecimal field at characters 28 to 57.
  - It writes that value in binary and takes the 32-bit window at binary digits 8 to 39.
  - It reverses each group of eight bits in place, then lists the positions holding `1`.
- **Alarm panel entity** (`AlarmPanel`):
  - It follows the status messages addressed to its keypad.
  - It picks the alarm state by priority: triggered, then armed away, then armed home, then disarmed.
  - It sends disarm, chime and keypress keystrokes.
  - Before arming away or home, it bypasses the zones whose bypass switch is on. Those zones are read back from the entity registry and the state machine (`BypassZones`) and sorted.
- **Zone bypass switch** (`ZoneSwitch`):
  - An on/off flag marks a zone for bypass, and the icon follows the flag.
  - Its unique id `entry_id + "_" + zone + "_bypass"` is what the panel parses back.
  - The platform setup creates one switch per bypassable zone.

The two test modules of the repository are modelled against this single definition:

- `FormatExamples` covers the concrete strings of the encoder tests.
- `IntegrationExamples` covers the test doubles of the registry and the states, the loop that sets them up, and the scenarios of the integration tests.

`Text` holds the Python built-ins the core relies on:

- `str` and `int` on integers;
- `str.split`, slicing, `[::-1]`;
- `bin(...)[2:]` and `int(s, 16)`.

`Wrappers` holds `Option`, for `None`, and `Result`, for a raised exception.

Modelling choices:

- The entity registry is a sequence of (entity id, entry) pairs in the dictionary's iteration order.
- The state machine is a map from entity id to state string.
- The AlarmDecoder client is a class whose only state is the log of commands it has been asked to send.
- `arm_away` and `arm_home` of the client library are log entries. The keystrokes they send are not modelled.
- The decoder is total:
  - An empty message, where the source's `raw[0]` raises `IndexError`, gives `Err(EmptyMessage)`.
  - A status field that is empty or not hexadecimal, where `int(…, 16)` raises `ValueError`, gives `Err(NotHexadecimal)`.
  - `_message_callback` passes such an error on and changes nothing, as the uncaught exception does.
- A short status message is not rejected.
  - A `[` message of 29 to 57 characters is decoded from the part of the field it has.
  - Only an empty or non-hexadecimal field fails, and `_message_callback` does not catch that failure.

## Model

Source paths are relative to the repository root.

| member | source | states |
|---|---|---|
| Text.DigitChar | custom_components/custom_alarmdecoder/alarm_control_panel.py:191 | the character for a digit `d < 10` is a decimal digit whose value is `d` |
| Text.NatToDecimal | custom_components/custom_alarmdecoder/alarm_control_panel.py:191 | `str(n)` for `n >= 0` is one or more decimal digits, starts with `0` exactly when `n == 0`, and is `"0"` for zero |
| Text.IntToDecimal | custom_components/custom_alarmdecoder/alarm_control_panel.py:191 | `str(z)` is non-empty, starts with a digit exactly when `z >= 0` and with `-` exactly when `z < 0` |
| Text.DecimalRoundTrip | custom_components/custom_alarmdecoder/alarm_control_panel.py:175 | the value of the digits of `str(n)` is `n` |
| Text.ParseIntRoundTrip | custom_components/custom_alarmdecoder/alarm_control_panel.py:174-175 | `int(str(z)) == z` for every integer `z` |
| Text.ParseDigits | custom_components/custom_alarmdecoder/alarm_control_panel.py:175 | `int` of a non-empty digit string is its decimal value |
| Text.ParseMinus | custom_components/custom_alarmdecoder/alarm_control_panel.py:175 | `int` of `-` followed by digits is minus their value |
| Text.LeadingZeroIgnored | test_ha_bypass_integration.py:226 | a leading `0` leaves the value of a digit string unchanged |
| Text.Split | custom_components/custom_alarmdecoder/alarm_control_panel.py:174 | `str.split` on one character always returns at least one field |
| Text.SplitPartsLackSeparator | custom_components/custom_alarmdecoder/alarm_control_panel.py:174 | no field returned by `split` contains the separator |
| Text.SplitJoin | custom_components/custom_alarmdecoder/alarm_control_panel.py:174 | joining the fields with the separator gives back the original string |
| Text.SplitAround | custom_components/custom_alarmdecoder/alarm_control_panel.py:174 | the fields of `a + sep + b` are the fields of `a` followed by those of `b` |
| Text.SplitWithoutSeparator | custom_components/custom_alarmdecoder/alarm_control_panel.py:174 | a string without the separator is its own single field |
| Text.ContainsSuffix | custom_components/custom_alarmdecoder/alarm_control_panel.py:167 | a string that ends with `sub` contains `sub` |
| Text.PySlice | custom_components/custom_alarmdecoder/alarm_control_panel.py:114 | Python's `s[i:j]`: both bounds are clamped to the length, and character `k` of the slice is `s[i + k]` |
| Text.Reverse | custom_components/custom_alarmdecoder/alarm_control_panel.py:117-120 | `s[::-1]` has the same length, and character `k` is `s[len - 1 - k]` |
| Text.ReverseSameLetters | custom_components/custom_alarmdecoder/alarm_control_panel.py:117-120 | reversal keeps the multiset of characters |
| Text.ToBinary | custom_components/custom_alarmdecoder/alarm_control_panel.py:115 | `bin(n)[2:]` is one or more bits with no leading zero: it starts with `1` exactly when `n > 0`, and is `"0"` for zero |
| Text.BinaryRoundTrip | custom_components/custom_alarmdecoder/alarm_control_panel.py:115 | the value of the binary digits of `n` is `n` |
| Text.HexDigitValue | custom_components/custom_alarmdecoder/alarm_control_panel.py:115 | a hexadecimal digit is worth less than 16 |
| Text.HexValue | custom_components/custom_alarmdecoder/alarm_control_panel.py:115 | `int(s, 16)` of `k` hexadecimal digits is below `16^k` |
| Text.HexBitsValue | custom_components/custom_alarmdecoder/alarm_control_panel.py:115 | the digits of `s`, each written as its four binary digits and read back in base 2, are worth `int(s, 16)` |
| Text.HexBitsAt | custom_components/custom_alarmdecoder/alarm_control_panel.py:115 | digit `i` of `s` becomes binary digits `4i` to `4i + 3` of that rendering |
| Text.HexPairAt | custom_components/custom_alarmdecoder/alarm_control_panel.py:115 | digits `j` and `j + 1` of `s` become the eight binary digits from `4j`, which lie inside the rendering |
| Text.BinaryValueConcat | custom_components/custom_alarmdecoder/alarm_control_panel.py:115 | the binary digits `a + b` are worth `a` shifted left by `len(b)` plus `b` |
| Text.ToBinaryNibble | custom_components/custom_alarmdecoder/alarm_control_panel.py:115 | for `v > 0`, `bin(16v + d)[2:]` is the digits of `v` followed by the four binary digits of `d` |
| Text.BinaryOfHex | custom_components/custom_alarmdecoder/alarm_control_panel.py:115 | when the first digit is 8 or more, `bin(int(s, 16))[2:]` is exactly the four-bit renderings of the digits, `4 * len(s)` binary digits |
| Text.HexLeadingZero | custom_components/custom_alarmdecoder/alarm_control_panel.py:115 | a leading `0` does not change `int(s, 16)`, so it adds no binary digits |
| BypassEncoder.BuildBypassString | custom_components/custom_alarmdecoder/alarm_control_panel.py:184-199 | the string is empty exactly when there are no zones; otherwise it has length `len(code) + 2 + total digits`, starts with the code then `6`, and ends with `*` |
| BypassEncoder.ZoneDigitsWidth | custom_components/custom_alarmdecoder/alarm_control_panel.py:191 | the joined zone digits are as long as the sum of the zones' decimal widths |
| BypassEncoder.ZoneDigitsAppend | custom_components/custom_alarmdecoder/alarm_control_panel.py:191 | joining two lists of zones one after the other is joining each: order is kept and there is no separator |
| BypassEncoder.ZoneDigitsSplit | custom_components/custom_alarmdecoder/alarm_control_panel.py:191 | the digits of zone `k` sit between the digits of the zones before it and those after it |
| BypassEncoder.ZoneInCommand | custom_components/custom_alarmdecoder/alarm_control_panel.py:189-192 | zone `k` is written in decimal right after the code, the `6` and the zones before it; a positive zone never starts with `0` |
| BypassEncoder.CodeIsPrefix | custom_components/custom_alarmdecoder/alarm_control_panel.py:192 | for a non-empty list, the string is the code followed by the string built without a code |
| KeypadDecoder.StatusField | custom_components/custom_alarmdecoder/alarm_control_panel.py:114 | the field `raw[28:58]` holds at most 30 characters |
| KeypadDecoder.KeypadWindow | custom_components/custom_alarmdecoder/alarm_control_panel.py:116 | the window `bits[8:40]` is empty when there are at most 8 bits, else holds `min(40, len) - 8` of them; it is at most 32 long, and character `k` is bit `8 + k` |
| KeypadDecoder.KeypadAddresses | custom_components/custom_alarmdecoder/alarm_control_panel.py:111-127 | `Err(EmptyMessage)` exactly for the empty message; `Err(NotHexadecimal)` exactly for a `[` message whose field is not hexadecimal; `Ok([])` for any other first character |
| KeypadDecoder.ExtractKeypadAddresses | custom_components/custom_alarmdecoder/alarm_control_panel.py:111-127 | the routine (slice, parse, regroup, collecting loop) returns the decoder's result |
| KeypadDecoder.CollectOnes | custom_components/custom_alarmdecoder/alarm_control_panel.py:122-126 | the loop collects the positions of the `1` characters in ascending order |
| KeypadDecoder.OnePositionsMembers | custom_components/custom_alarmdecoder/alarm_control_panel.py:122-126 | position `a` is listed exactly when `s[a]` is `1` |
| KeypadDecoder.OnePositionsIncreasing | custom_components/custom_alarmdecoder/alarm_control_panel.py:122-126 | the positions are strictly increasing, so each appears once |
| KeypadDecoder.OnePositionsCount | custom_components/custom_alarmdecoder/alarm_control_panel.py:122-126 | there are as many positions as `1` characters |
| KeypadDecoder.WindowGroups | custom_components/custom_alarmdecoder/alarm_control_panel.py:117-120 | the slices `[0:8]`, `[8:16]`, `[16:24]` and `[24:35]` of a window of at most 32 bits put back together are the window |
| KeypadDecoder.RegroupSameLetters | custom_components/custom_alarmdecoder/alarm_control_panel.py:117-121 | the regrouped mask has the same length and the same multiset of bits as the window |
| KeypadDecoder.MirrorInGroup | custom_components/custom_alarmdecoder/alarm_control_panel.py:117-121 | character `8g + j` of the window lands at `8g + L - 1 - j`, where `L` is the length of group `g` (8 except for a short last group) |
| KeypadDecoder.RegroupMirrors | custom_components/custom_alarmdecoder/alarm_control_panel.py:117-121 | the regrouped mask is the window with each group reversed in place: same length, same bits, and every character at its mirrored position |
| KeypadDecoder.MirrorInvolution | custom_components/custom_alarmdecoder/alarm_control_panel.py:117-121 | mirroring twice gives the position back, so the reordering is a bijection on `0 .. len - 1` |
| KeypadDecoder.RegroupedOnes | custom_components/custom_alarmdecoder/alarm_control_panel.py:117-126 | the decoded addresses are strictly increasing, and address `a` is listed exactly when `a < len(w)` and window bit `Mirror(a)` is `1` |
| KeypadDecoder.RegroupedCount | custom_components/custom_alarmdecoder/alarm_control_panel.py:116-126 | there are as many addresses as `1` bits in the window |
| KeypadDecoder.MirroredOnes | custom_components/custom_alarmdecoder/alarm_control_panel.py:122-126 | in any string that places each window bit at its mirror, the `1` positions are the mirrored `1` bits of the window |
| KeypadDecoder.AddressesOfStatusMessage | custom_components/custom_alarmdecoder/alarm_control_panel.py:113-126 | a decodable status message gives a strictly increasing list; every address is below the window length, so below 32; an address is listed exactly when its mirrored window bit is set; the list is as long as the window's count of `1` bits |
| KeypadDecoder.IncreasingByMembers | custom_components/custom_alarmdecoder/alarm_control_panel.py:122-126 | two strictly increasing lists with the same members are equal |
| KeypadDecoder.OneHotGroup | custom_components/custom_alarmdecoder/alarm_control_panel.py:117-120 | a group of eight characters whose only `1` is at position `j` |
| KeypadDecoder.OneBitPerThreeGroups | custom_components/custom_alarmdecoder/alarm_control_panel.py:117-126 | a 24-bit window with one set bit `j_g` in each of its three groups decodes to exactly `[7 - j0, 15 - j1, 23 - j2]`; the missing fourth group adds nothing |
| KeypadDecoder.FullWidthWindow | custom_components/custom_alarmdecoder/alarm_control_panel.py:115-116 | the field `FF80402010` has 40 binary digits, and digits 8 to 39 are four groups with bits 0, 1, 2 and 3 set |
| KeypadDecoder.LeadingZeroWindow | custom_components/custom_alarmdecoder/alarm_control_panel.py:115-116 | `0080402010` loses its leading zeros in `int(..., 16)`, so it has 32 binary digits, and digits 8 to 31 are three groups with bits 1, 2 and 3 set |
| KeypadDecoder.FullWidthField | custom_components/custom_alarmdecoder/alarm_control_panel.py:111-126 | a `[` message whose characters 28 to 37 are `FF80402010` targets keypads `[7, 14, 21, 28]`, whatever its first 27 characters after the `[` |
| KeypadDecoder.LeadingZeroField | custom_components/custom_alarmdecoder/alarm_control_panel.py:111-126 | with field `0080402010` the same message targets `[6, 13, 20]`: the leading zeros shift every address, and the last keypad is lost |
| KeypadDecoder.OneBitPerGroup | custom_components/custom_alarmdecoder/alarm_control_panel.py:117-126 | a mask with one set bit `j_g` in each of the four groups decodes to exactly `[7 - j0, 15 - j1, 23 - j2, 31 - j3]`: each bit is reversed within its group and the group order is kept |
| ZoneSwitch.DisplayName | custom_components/custom_alarmdecoder/switch.py:69-72 | the name is `"<zone_name> Bypass"` when the zone name is truthy, else `"Zone <n> Bypass"` |
| ZoneSwitch.NameFollowsAttribute | custom_components/custom_alarmdecoder/switch.py:69-103 | the name is the `zone_name` attribute plus `" Bypass"` exactly unless the configured zone name is the empty string |
| ZoneSwitch.BypassSwitch.constructor | custom_components/custom_alarmdecoder/switch.py:49-76 | a new switch is not bypassed, its icon is `mdi:shield-check`, its unique id is `entry_id_<n>_bypass`, and it has the name above |
| ZoneSwitch.BypassSwitch.IsOn | custom_components/custom_alarmdecoder/switch.py:79-81 | `is_on` is the bypass flag, which is on exactly when a valid switch shows `mdi:shield-off` |
| ZoneSwitch.BypassSwitch.ExtraStateAttributes | custom_components/custom_alarmdecoder/switch.py:97-106 | the attributes hold the zone number and the flag; `zone_type` is the configured type, or `door_window` when it is missing; `zone_name` is the configured name, or `Zone <n>` when it is missing |
| ZoneSwitch.BypassSwitch.TurnOn | custom_components/custom_alarmdecoder/switch.py:109-113 | afterwards the zone is marked and the icon is `mdi:shield-off` |
| ZoneSwitch.BypassSwitch.TurnOff | custom_components/custom_alarmdecoder/switch.py:116-121 | afterwards the zone is unmarked and the icon is `mdi:shield-check` |
| ZoneSwitch.BypassSwitch.ResetBypassState | custom_components/custom_alarmdecoder/switch.py:123-128 | afterwards the zone is unmarked; a marked switch gets `mdi:shield-check`; an unmarked one keeps its icon; the icon invariant is preserved |
| ZoneSwitch.BypassableZones | custom_components/custom_alarmdecoder/switch.py:34-35 | the filter keeps at most as many zones as the zone dictionary has |
| ZoneSwitch.BypassableZonesMembers | custom_components/custom_alarmdecoder/switch.py:34-35 | a zone is kept exactly when it is in the dictionary and marked bypassable |
| ZoneSwitch.BypassableZonesAppend | custom_components/custom_alarmdecoder/switch.py:34-40 | filtering two parts of the dictionary one after the other keeps their order |
| ZoneSwitch.BypassableStep | custom_components/custom_alarmdecoder/switch.py:34-40 | one more dictionary entry adds itself to the filtered zones exactly when it is bypassable |
| ZoneSwitch.NewSwitch | custom_components/custom_alarmdecoder/switch.py:37-39 | a fresh switch for a zone and its config, valid and unmarked, with its unique id |
| ZoneSwitch.SetupSwitches | custom_components/custom_alarmdecoder/switch.py:32-40 | one fresh, valid, unmarked switch per bypassable zone, in dictionary order, each holding that zone's number, config, entry id and unique id |
| BypassZones.SelectedSingle | custom_components/custom_alarmdecoder/alarm_control_panel.py:164-176 | a registry of one item yields that item's zone, if it yields one |
| BypassZones.Insert | custom_components/custom_alarmdecoder/alarm_control_panel.py:182 | inserting into a sorted list gives a sorted list one longer, holding the same elements plus `x` |
| BypassZones.SortAscending | custom_components/custom_alarmdecoder/alarm_control_panel.py:182 | `sorted` gives an ascending permutation of its input |
| BypassZones.SortedUnique | custom_components/custom_alarmdecoder/alarm_control_panel.py:182 | two sorted lists with the same multiset of elements are equal, so `sorted` has exactly one possible result |
| BypassZones.SortSorted | custom_components/custom_alarmdecoder/alarm_control_panel.py:182 | sorting a sorted list changes nothing |
| BypassZones.ExtractBypassZones | custom_components/custom_alarmdecoder/alarm_control_panel.py:158-182 | the scanning loop with its checks, then the sort, gives the sorted selected zones |
| BypassZones.MarkerGivesTwoFields | custom_components/custom_alarmdecoder/alarm_control_panel.py:167-174 | a unique id that contains `_bypass` has at least two `_`-fields, so `[-2]` never raises `IndexError` there |
| BypassZones.ZonesToBypassSorted | custom_components/custom_alarmdecoder/alarm_control_panel.py:181-182 | the result is ascending and holds each selected zone as often as it was selected |
| BypassZones.SelectedZonesMembers | custom_components/custom_alarmdecoder/alarm_control_panel.py:164-176 | a zone is selected exactly when some registry item yields it |
| BypassZones.ZonesToBypassMembers | custom_components/custom_alarmdecoder/alarm_control_panel.py:164-182 | `z` is in the result exactly when some item is a switch of this entry, has `_bypass` in its unique id, is `on`, and its `[-2]` field parses to `z` |
| BypassZones.SelectedZonesAppend | custom_components/custom_alarmdecoder/alarm_control_panel.py:164-176 | scanning two parts of the registry gives the first part's zones, then the second's |
| BypassZones.SkippedItem | custom_components/custom_alarmdecoder/alarm_control_panel.py:164-179 | an item that yields nothing can be anywhere in the registry without changing the result; such items are another entry, another domain, no marker, not `on`, or a field that does not parse |
| BypassZones.RegistryOrderIrrelevant | custom_components/custom_alarmdecoder/alarm_control_panel.py:164-182 | swapping two neighbouring registry items does not change the result |
| BypassZones.SwapSameZones | custom_components/custom_alarmdecoder/alarm_control_panel.py:164-176 | swapping two neighbouring items keeps the multiset of selected zones |
| BypassZones.UniqueIdRoundTrip | custom_components/custom_alarmdecoder/switch.py:64 | a switch's unique id contains `_bypass`, and its `[-2]` field parses back to the zone, for every entry id and zone |
| BypassZones.UniqueIdFields | custom_components/custom_alarmdecoder/switch.py:64 | the `_`-fields of the unique id are those of the entry id followed by the zone's digits and `bypass` |
| BypassZones.TwoFields | custom_components/custom_alarmdecoder/alarm_control_panel.py:174 | two fields without `_`, joined by one `_`, split back into those two fields |
| AlarmPanel.StateIsHighestIndicated | custom_components/custom_alarmdecoder/alarm_control_panel.py:135-142 | the state chosen is called for by the message's flags and ranks at least as high as every state they call for: triggered, then armed away, then armed home, then disarmed |
| AlarmPanel.OutOfRangeAddressNeverTargeted | custom_components/custom_alarmdecoder/alarm_control_panel.py:131-133 | no decoded message targets an address outside 0..31 |
| AlarmPanel.CodeThenKeyShape | custom_components/custom_alarmdecoder/alarm_control_panel.py:201-204 | disarm and chime send one keystroke string, the code followed by the key, when the code is truthy, and nothing otherwise |
| AlarmPanel.KeypressShape | custom_components/custom_alarmdecoder/alarm_control_panel.py:265-268 | a keypress is sent alone and verbatim, and an empty one sends nothing |
| AlarmPanel.ArmCommandsShape | custom_components/custom_alarmdecoder/alarm_control_panel.py:206-258 | arming sends the bypass string first exactly when there are zones to bypass, and always ends with the arm call; the only keystrokes sent are that bypass string |
| AlarmPanel.Client.constructor | custom_components/custom_alarmdecoder/alarm_control_panel.py:94-97 | a client with its serial number and nothing sent yet |
| AlarmPanel.Client.Send | custom_components/custom_alarmdecoder/alarm_control_panel.py:204 | `send` appends one keystroke string to the log |
| AlarmPanel.Client.ArmAway | custom_components/custom_alarmdecoder/alarm_control_panel.py:218-222 | `arm_away` appends one arm-away call, with its code and flags, to the log |
| AlarmPanel.Client.ArmHome | custom_components/custom_alarmdecoder/alarm_control_panel.py:246-250 | `arm_home` appends one arm-home call, with its code and flags, to the log |
| AlarmPanel.Panel.constructor | custom_components/custom_alarmdecoder/alarm_control_panel.py:94-101 | the unique id is `<serial>-panel`; the flags, address and entry id are stored; no state has been set yet |
| AlarmPanel.Panel.MessageCallback | custom_components/custom_alarmdecoder/alarm_control_panel.py:129-156 | a decoder error passes on and changes nothing; a message not for this address changes nothing; otherwise the alarm state follows the priority order and the attributes are copied from the message |
| AlarmPanel.Panel.AlarmDisarm | custom_components/custom_alarmdecoder/alarm_control_panel.py:201-204 | the log grows by `code + "1"` when the code is truthy, and by nothing otherwise |
| AlarmPanel.Panel.SendBypass | custom_components/custom_alarmdecoder/alarm_control_panel.py:211-216 | the log grows by the bypass string, built with `code or ""`, exactly when there are zones |
| AlarmPanel.Panel.AlarmArmAway | custom_components/custom_alarmdecoder/alarm_control_panel.py:206-229 | the log grows by the bypass string of the sorted selected zones when there are any, then by the arm-away call |
| AlarmPanel.Panel.AlarmArmHome | custom_components/custom_alarmdecoder/alarm_control_panel.py:232-258 | the log grows by the bypass string of the sorted selected zones when there are any, then by the arm-home call; the `code + "3"` string is not sent |
| AlarmPanel.Panel.AlarmToggleChime | custom_components/custom_alarmdecoder/alarm_control_panel.py:260-263 | the log grows by `code + "9"` when the code is truthy, and by nothing otherwise |
| AlarmPanel.Panel.AlarmKeypress | custom_components/custom_alarmdecoder/alarm_control_panel.py:265-268 | the log grows by the keypress when it is non-empty, and by nothing otherwise |
| FormatExamples.BuildOne | test_bypass_format_pytest.py:9-19 | a single zone `z` gives `code + "6" + str(z) + "*"` for every code |
| FormatExamples.SingleDigitZones | test_bypass_format_pytest.py:25-29 | the strings for zones 1, 5 and 9 |
| FormatExamples.ZoneOneHasNoLeadingZero | test_bypass_format_pytest.py:31-37 | zone 1 gives `123461*`, which is neither `123460*` nor `12346010*` |
| FormatExamples.MultipleSingleDigitZones | test_bypass_format_pytest.py:39-43 | the strings for `[1, 2]`, `[1, 5, 9]` and, without a code, `[7, 8, 9]` |
| FormatExamples.TwoDigitZones | test_bypass_format_pytest.py:45-50 | the strings for 10, 15, `[25, 30]` and 99 |
| FormatExamples.ThreeDigitZones | test_bypass_format_pytest.py:52-57 | the strings for 100, 101, `[105, 110]` and 999 |
| FormatExamples.MixedDigitZones | test_bypass_format_pytest.py:59-64 | zones of different widths are written one after the other with no separator |
| FormatExamples.TrailingAndInnerZerosKept | test_bypass_format_pytest.py:66-76 | zeros inside and at the end of a zone number are kept |
| FormatExamples.NoCode | test_bypass_format_pytest.py:78-83 | without a code the string starts with `6` |
| FormatExamples.NoZones | test_bypass_format_pytest.py:85-88 | no zones give the empty string, with or without a code |
| FormatExamples.TwelveZones | test_bypass_format_pytest.py:90-94 | zones 1 to 12 give `12346123456789101112*` |
| FormatExamples.PowersOfTen | test_bypass_format_pytest.py:96-99 | the strings for `[1, 10, 100]` and `[1, 10, 100, 1000]` |
| FormatExamples.NoLeadingZeros | test_bypass_format_pytest.py:101-121 | for any positive zone and any code, the character after the `6` is not `0` |
| FormatExamples.KeyNotFollowedByZero | test_bypass_format_pytest.py:115-121 | a string in which no `6` is followed by `0` contains no pattern that starts with `60` |
| FormatExamples.NoLeadingZeroPatterns | test_bypass_format_pytest.py:101-121 | each of the six single-zone cases gives its expected string, and none of the six strings contains any of the six zero-padded patterns |
| FormatExamples.ParametrizedCases | test_bypass_format_pytest.py:124-148 | the eleven parametrized cases |
| FormatExamples.RealWorldScenarios | test_bypass_format_pytest.py:151-163 | the strings for 5, `[1, 2, 3]`, `[150, 151, 152]` and `[5, 25, 125]` |
| IntegrationExamples.Upsert | test_ha_bypass_integration.py:40 | dictionary assignment adds at most one item |
| IntegrationExamples.UpsertLookup | test_ha_bypass_integration.py:40 | after assigning, the key holds the new entry and every other key keeps its own |
| IntegrationExamples.UpsertNewKey | test_ha_bypass_integration.py:40 | a new key is appended at the end of the iteration order |
| IntegrationExamples.MockEntityRegistry.constructor | test_ha_bypass_integration.py:32-33 | the registry starts empty |
| IntegrationExamples.MockEntityRegistry.AddEntity | test_ha_bypass_integration.py:35-40 | the entity id is assigned an entry with the given config entry, domain and unique id |
| IntegrationExamples.MockStates.constructor | test_ha_bypass_integration.py:16-17 | the states start empty |
| IntegrationExamples.MockStates.Get | test_ha_bypass_integration.py:19-20 | `get` returns the stored state, or `None` when the entity has none |
| IntegrationExamples.MockStates.SetState | test_ha_bypass_integration.py:22-25 | the entity's state is set, and the others are kept |
| IntegrationExamples.SwitchContributes | test_ha_bypass_integration.py:57-67 | a bypass switch of the scanned entry yields its zone exactly when it is on |
| IntegrationExamples.EntityIdInjective | test_ha_bypass_integration.py:108 | different zones get different entity ids |
| IntegrationExamples.SwitchRegistry | test_ha_bypass_integration.py:107-112 | one registry item per zone |
| IntegrationExamples.LookupOutside | test_ha_bypass_integration.py:107-112 | the registry holds no entity id of a zone that was not set up |
| IntegrationExamples.ScanOfSwitchRegistry | test_ha_bypass_integration.py:53-71 | scanning the tests' registry reads back exactly the active zones, in registry order |
| IntegrationExamples.StatesSetStep | test_ha_bypass_integration.py:155-162 | setting a new zone's state keeps the states of the zones set before |
| IntegrationExamples.NewZone | test_ha_bypass_integration.py:155-162 | in a list without repeats, the zone at step `i` was not set up before |
| IntegrationExamples.SetupStep | test_ha_bypass_integration.py:155-162 | one loop iteration extends the registry by that zone's switch and sets that zone's state |
| IntegrationExamples.AddZoneSwitches | test_ha_bypass_integration.py:155-162 | the setup loop leaves one switch per zone in the registry, in order, with every switch `on` exactly when its zone is active |
| IntegrationExamples.ActiveStep | test_ha_bypass_integration.py:161 | one more zone is added to the active zones exactly when it is active |
| IntegrationExamples.AllActive | test_ha_bypass_integration.py:107-112 | when every zone is active, all of them are read back, in order |
| IntegrationExamples.RunScenario | test_ha_bypass_integration.py:149-167 | setting up switches for distinct zones, with the sorted active ones on, reads back exactly the active zones and builds their string |
| IntegrationExamples.NoBypassZonesActive | test_ha_bypass_integration.py:83-87 | an empty registry gives no zones and the empty string |
| IntegrationExamples.IncreasingAllOn | test_ha_bypass_integration.py:103-117 | a strictly increasing list has no repeats, is sorted, and is all read back when every zone is on |
| IntegrationExamples.RunAllOn | test_ha_bypass_integration.py:103-117 | with every switch of an increasing list on, the zones come back as listed |
| IntegrationExamples.OneSwitchOn | test_ha_bypass_integration.py:89-101 | a registry of one bypass switch, on, gives its zone |
| IntegrationExamples.SingleBypassZoneActive | test_ha_bypass_integration.py:89-101 | zone 1 on gives `[1]` and `123461*` |
| IntegrationExamples.MultipleBypassZonesActive | test_ha_bypass_integration.py:103-117 | zones 1, 5 and 12 on give `[1, 5, 12]` and `123461512*` |
| IntegrationExamples.ZoneZeroOneConfiguration | test_ha_bypass_integration.py:119-131 | the switch `switch.zone_01_bypass`, with unique id `…_1_bypass`, gives `[1]` and `123461*` |
| IntegrationExamples.MixedZoneDigits | test_ha_bypass_integration.py:133-147 | zones 1, 15 and 100 on give `[1, 15, 100]` and `12346115100*` |
| IntegrationExamples.InactiveSwitchesScenario | test_ha_bypass_integration.py:149-167 | of zones 1 to 5, only 1, 3 and 5 on give `[1, 3, 5]` and `12346135*` |
| IntegrationExamples.OtherEntryNone | test_ha_bypass_integration.py:58 | an item of another config entry yields nothing, whatever its state |
| IntegrationExamples.TwoEntriesScan | test_ha_bypass_integration.py:169-191 | of a switch that is on and an item of another entry, only the first one's zone is read |
| IntegrationExamples.TwoEntriesScenario | test_ha_bypass_integration.py:169-191 | two switches of different entries, both on: only the scanned entry's zone comes back |
| IntegrationExamples.DifferentConfigEntries | test_ha_bypass_integration.py:169-191 | the test's two entries give `[1]` and `123461*` |
| IntegrationExamples.ArmCommandSequence | test_ha_bypass_integration.py:193-210 | zone 5 on gives the bypass string `123465*` |
| IntegrationExamples.LStripZeros | test_ha_bypass_integration.py:226 | `lstrip('0')` returns a suffix of the input that does not start with `0`, and only zeros were removed |
| IntegrationExamples.StrippedValue | test_ha_bypass_integration.py:226 | stripping leading zeros keeps a digit string's value |
| IntegrationExamples.ProcessedZoneIsInt | test_ha_bypass_integration.py:226 | on a non-empty digit string, `int(s.lstrip('0') or '0')` equals `int(s)` |
| IntegrationExamples.Zeros | test_ha_bypass_integration.py:226 | `n` zero digits |
| IntegrationExamples.ZeroPadded | test_ha_bypass_integration.py:226 | any number of leading zeros leaves a digit string's value unchanged |
| IntegrationExamples.ConfigFormat | test_ha_bypass_integration.py:213-229 | a zone written with any number of leading zeros reads as that zone |
| IntegrationExamples.ZoneConfigurationFormats | test_ha_bypass_integration.py:213-229 | the eight configured forms read as their zones, and those zones give the expected strings |

## Left out

- Logging, `schedule_update_ha_state`, `async_write_ha_state` and `async_schedule_update_ha_state` are left out. They notify the framework and change no state the model keeps.
- The platform setup of the panel entities, one per keypad, service registration and dispatcher subscription (`async_added_to_hass`) are left out. They are framework wiring.
- `custom_components/custom_alarmdecoder/__init__.py`, `config_flow_new.py`, `entity.py`, the translation tests and `test_bypass_format.py` are not part of this model. They hold connection handling, UI flows, device info, translation files and a print-driven copy of the encoder.
- The keystrokes that the client library's `arm_away` and `arm_home` send are not modelled. That library is not part of this model, so the calls are opaque log entries.
- The base-class attributes are left out: the `extra_state_attributes` of the parent entity, the translation key and the translation placeholders of the switch.
- The switch's `_message_callback` is left out. It does nothing.
- The integration test's literal constants `"12342"` and `"12343"` are left out. They are compared with themselves, not computed.
- Text.ParseInt: accepts only an optional `+` or `-` followed by ASCII digits. Python's `int` also accepts surrounding whitespace, underscores between digits and non-ASCII digits. Unique ids written by the switch never use those forms.
- BypassZones.ZoneField: is built on that narrower `int`. An id whose `[-2]` field uses one of those lenient forms is skipped in the model, but Python would read it.
- KeypadDecoder.KeypadAddresses: the status field is read only as plain hexadecimal digits. Python's `int(s, 16)` also accepts a `0x` prefix, a sign, underscores, surrounding whitespace and non-ASCII digits.
- A zone configuration key that is present with value `None` is not told apart from a missing key. Zone types and names are modelled as optional strings.
- The registry's state objects are reduced to their state string. `hass.states.get` returning an object with a `state` field is modelled as the map lookup.
- Thread-safety and the ordering of concurrent messages are left out. The model has no concurrency.
