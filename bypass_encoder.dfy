/**
 * The keystroke string that asks the panel to bypass zones before arming:
 * the access code, the bypass command key `6`, the zone numbers written in
 * decimal one after the other, and the terminator `*`.
 */
module BypassEncoder {
  import opened Text

  /** The zone numbers in decimal, in the given order, with no separator. */
  function ZoneDigits(zones: seq<int>): string
  {
    if zones == [] then "" else IntToDecimal(zones[0]) + ZoneDigits(zones[1..])
  }

  /** Total number of characters the zone numbers take in decimal. */
  function DigitsWidth(zones: seq<int>): nat
  {
    if zones == [] then 0 else |IntToDecimal(zones[0])| + DigitsWidth(zones[1..])
  }

  /** `_build_bypass_string(zones, code)`: empty for no zones, else `code + "6" + digits + "*"`. */
  function BuildBypassString(zones: seq<int>, code: string): (cmd: string)
    ensures cmd == "" <==> zones == []
    ensures zones != [] ==> |cmd| == |code| + 2 + DigitsWidth(zones)
    ensures zones != [] ==> cmd[..|code|] == code && cmd[|code|] == '6' && cmd[|cmd| - 1] == '*'
  {
    ZoneDigitsWidth(zones);
    if zones == [] then "" else code + "6" + ZoneDigits(zones) + "*"
  }

  lemma {:induction false} ZoneDigitsWidth(zones: seq<int>)
    ensures |ZoneDigits(zones)| == DigitsWidth(zones)
  {
    if zones != [] {
      ZoneDigitsWidth(zones[1..]);
    }
  }

  /** Writing a list of zones is writing its two halves one after the other. */
  lemma {:induction false} ZoneDigitsAppend(a: seq<int>, b: seq<int>)
    ensures ZoneDigits(a + b) == ZoneDigits(a) + ZoneDigits(b)
  {
    if a == [] {
      assert a + b == b;
    } else {
      assert (a + b)[1..] == a[1..] + b;
      ZoneDigitsAppend(a[1..], b);
    }
  }

  /** The digits of zone `k` sit between those of the zones before and after it. */
  lemma ZoneDigitsSplit(zones: seq<int>, k: nat)
    requires k < |zones|
    ensures ZoneDigits(zones) == ZoneDigits(zones[..k]) + IntToDecimal(zones[k]) + ZoneDigits(zones[k + 1..])
  {
    var rest := zones[k..];
    assert zones == zones[..k] + rest;
    ZoneDigitsAppend(zones[..k], rest);
    assert rest[0] == zones[k] && rest[1..] == zones[k + 1..];
    assert ZoneDigits(rest) == IntToDecimal(zones[k]) + ZoneDigits(zones[k + 1..]);
  }

  /** Where the digits of zone `k` start in the command: after the code, the key and the zones before it. */
  function ZoneStart(code: string, zones: seq<int>, k: nat): nat
    requires k <= |zones|
  {
    |code| + 1 + |ZoneDigits(zones[..k])|
  }

  /**
   * Zone `k` is written in the command right after the digits of the zones
   * before it, in decimal, and a positive zone starts with a non-zero digit.
   */
  lemma ZoneInCommand(zones: seq<int>, code: string, k: nat)
    requires k < |zones|
    ensures ZoneStart(code, zones, k) + |IntToDecimal(zones[k])| < |BuildBypassString(zones, code)|
    ensures BuildBypassString(zones, code)[ZoneStart(code, zones, k)..ZoneStart(code, zones, k) + |IntToDecimal(zones[k])|]
      == IntToDecimal(zones[k])
    ensures zones[k] > 0 ==> BuildBypassString(zones, code)[ZoneStart(code, zones, k)] != '0'
  {
    var z := IntToDecimal(zones[k]);
    if zones[k] > 0 {
      assert z == NatToDecimal(zones[k]);
    }
    assert zones[k] > 0 ==> z[0] != '0';
    ZoneDigitsSplit(zones, k);
    CommandLayout(BuildBypassString(zones, code), code, ZoneDigits(zones[..k]), z, ZoneDigits(zones[k + 1..]),
                  ZoneStart(code, zones, k));
  }

  /** In `code + "6" + (b + z + y) + "*"`, the part `z` starts right after `code`, the key and `b`. */
  lemma CommandLayout(cmd: string, code: string, b: string, z: string, y: string, at: nat)
    requires cmd == code + "6" + (b + z + y) + "*" && |z| >= 1
    requires at == |code| + 1 + |b|
    ensures at + |z| < |cmd| && cmd[at..at + |z|] == z && cmd[at] == z[0]
  {
    assert cmd == (code + "6" + b) + z + (y + "*");
  }

  /** A zone list is written the same way whatever code comes before it. */
  lemma CodeIsPrefix(zones: seq<int>, code: string)
    requires zones != []
    ensures BuildBypassString(zones, code) == code + BuildBypassString(zones, "")
  {
    var d := ZoneDigits(zones);
    assert BuildBypassString(zones, "") == "" + "6" + d + "*";
    assert code + ("" + "6" + d + "*") == code + "6" + d + "*";
  }
}
