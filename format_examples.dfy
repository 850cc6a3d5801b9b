/**
 * The concrete bypass strings the encoder's test suite pins down, stated
 * against the one encoder definition. Each example is its own small lemma;
 * the lemmas named after a group of assertions collect them.
 */
module FormatExamples {
  import opened Text
  import opened BypassEncoder

  lemma SingleDigitZones()
    ensures BuildBypassString([1], "1234") == "123461*"
    ensures BuildBypassString([5], "1234") == "123465*"
    ensures BuildBypassString([9], "1234") == "123469*"
  {
    Zones1(); Zones5(); Zones9();
  }

  lemma MultipleSingleDigitZones()
    ensures BuildBypassString([1, 2], "1234") == "1234612*"
    ensures BuildBypassString([1, 5, 9], "1234") == "12346159*"
    ensures BuildBypassString([7, 8, 9], "") == "6789*"
  {
    Zones1And2(); Zones1And5And9(); Zones7And8And9NoCode();
  }

  lemma TwoDigitZones()
    ensures BuildBypassString([10], "1234") == "1234610*"
    ensures BuildBypassString([15], "1234") == "1234615*"
    ensures BuildBypassString([25, 30], "1234") == "123462530*"
    ensures BuildBypassString([99], "1234") == "1234699*"
  {
    Zones10(); Zones15(); Zones25And30(); Zones99();
  }

  lemma ThreeDigitZones()
    ensures BuildBypassString([100], "1234") == "12346100*"
    ensures BuildBypassString([101], "1234") == "12346101*"
    ensures BuildBypassString([105, 110], "1234") == "12346105110*"
    ensures BuildBypassString([999], "1234") == "12346999*"
  {
    Zones100(); Zones101(); Zones105And110(); Zones999();
  }

  /** Zones of different widths are written one after the other with no separator. */
  lemma MixedDigitZones()
    ensures BuildBypassString([1, 11], "1234") == "12346111*"
    ensures BuildBypassString([3, 5, 12], "1234") == "123463512*"
    ensures BuildBypassString([1, 50, 100], "1234") == "12346150100*"
    ensures BuildBypassString([5, 15, 25], "1234") == "1234651525*"
  {
    Zones1And11(); Zones3And5And12(); Zones1And50And100(); Zones5And15And25();
  }

  /** Zeros inside or at the end of a zone number are kept. */
  lemma TrailingAndInnerZerosKept()
    ensures BuildBypassString([10], "1234") == "1234610*"
    ensures BuildBypassString([20, 30, 40], "1234") == "12346203040*"
    ensures BuildBypassString([100, 200, 300], "1234") == "12346100200300*"
    ensures BuildBypassString([101, 102, 103], "1234") == "12346101102103*"
    ensures BuildBypassString([105], "1234") == "12346105*"
    ensures BuildBypassString([1010], "1234") == "123461010*"
  {
    Zones10(); Zones20And30And40(); Zones100And200And300(); Zones101And102And103(); Zones105(); Zones1010();
  }

  /** Without a code the string starts with the bypass key. */
  lemma NoCode()
    ensures BuildBypassString([1], "") == "61*"
    ensures BuildBypassString([15, 25], "") == "61525*"
    ensures BuildBypassString([100, 200], "") == "6100200*"
    ensures BuildBypassString([7, 8, 9], "") == "6789*"
  {
    Zones1NoCode(); Zones15And25NoCode(); Zones100And200NoCode(); Zones7And8And9NoCode();
  }

  lemma PowersOfTen()
    ensures BuildBypassString([1, 10, 100], "1234") == "12346110100*"
    ensures BuildBypassString([1, 10, 100, 1000], "1234") == "123461101001000*"
  {
    Zones1And10And100(); Zones1And10And100And1000();
  }

  lemma RealWorldScenarios()
    ensures BuildBypassString([5], "1234") == "123465*"
    ensures BuildBypassString([1, 2, 3], "1234") == "12346123*"
    ensures BuildBypassString([150, 151, 152], "1234") == "12346150151152*"
    ensures BuildBypassString([5, 25, 125], "1234") == "12346525125*"
  {
    Zones5(); Zones1And2And3(); Zones150And151And152(); Zones5And25And125();
  }

  lemma ParametrizedCases()
    ensures BuildBypassString([1], "1234") == "123461*"
    ensures BuildBypassString([1, 2], "1234") == "1234612*"
    ensures BuildBypassString([1, 11], "1234") == "12346111*"
    ensures BuildBypassString([1], "") == "61*"
    ensures BuildBypassString([15], "1234") == "1234615*"
    ensures BuildBypassString([25, 30], "1234") == "123462530*"
    ensures BuildBypassString([100], "1234") == "12346100*"
    ensures BuildBypassString([101], "1234") == "12346101*"
    ensures BuildBypassString([1, 50, 100], "1234") == "12346150100*"
    ensures BuildBypassString([3, 5, 12], "1234") == "123463512*"
  {
    Zones1(); Zones1And2(); Zones1And11(); Zones1NoCode(); Zones15(); Zones25And30(); Zones100(); Zones101(); Zones1And50And100(); Zones3And5And12();
  }

  /** Twelve zones in a row, the two-digit ones included, with no separator. */
  lemma TwelveZones()
    ensures BuildBypassString([1, 2, 3, 4, 5, 6, 7, 8, 9, 10, 11, 12], "1234") == "12346123456789101112*"
  {
    DigitsThree(1, 2, 3);
    DigitsThree(4, 5, 6);
    DigitsThree(7, 8, 9);
    DigitsThree(10, 11, 12);
    Decimals();
    FourParts([1, 2, 3], [4, 5, 6], [7, 8, 9], [10, 11, 12], "123", "456", "789", "101112");
    assert [1, 2, 3] + [4, 5, 6] + [7, 8, 9] + [10, 11, 12] == [1, 2, 3, 4, 5, 6, 7, 8, 9, 10, 11, 12];
    TwelveZonesText("1234", "123", "456", "789", "101112");
    Encoded([1, 2, 3, 4, 5, 6, 7, 8, 9, 10, 11, 12], "1234", "123" + "456" + "789" + "101112");
  }

  lemma Decimals()
    ensures IntToDecimal(1) + IntToDecimal(2) + IntToDecimal(3) == "123"
    ensures IntToDecimal(4) + IntToDecimal(5) + IntToDecimal(6) == "456"
    ensures IntToDecimal(7) + IntToDecimal(8) + IntToDecimal(9) == "789"
    ensures IntToDecimal(10) + IntToDecimal(11) + IntToDecimal(12) == "101112"
  {
  }

  lemma TwelveZonesText(code: string, w: string, x: string, y: string, z: string)
    requires code == "1234" && w == "123" && x == "456" && y == "789" && z == "101112"
    ensures code + "6" + (w + x + y + z) + "*" == "12346123456789101112*"
  {
  }

  lemma FourParts(a: seq<int>, b: seq<int>, c: seq<int>, d: seq<int>, w: string, x: string, y: string, z: string)
    requires ZoneDigits(a) == w && ZoneDigits(b) == x && ZoneDigits(c) == y && ZoneDigits(d) == z
    ensures ZoneDigits(a + b + c + d) == w + x + y + z
  {
    ZoneDigitsAppend(a, b);
    ZoneDigitsAppend(a + b, c);
    ZoneDigitsAppend(a + b + c, d);
  }

  /** A non-empty zone list whose digits are `d` gives the code, `6`, `d` and `*`. */
  lemma Encoded(zones: seq<int>, code: string, d: string)
    requires zones != [] && ZoneDigits(zones) == d
    ensures BuildBypassString(zones, code) == code + "6" + d + "*"
  {
  }

  /** Zone one configured as `01` is the integer 1 and is written without the zero. */
  lemma ZoneOneHasNoLeadingZero()
    ensures BuildBypassString([1], "1234") == "123461*"
    ensures BuildBypassString([1], "1234") != "123460*"
    ensures BuildBypassString([1], "1234") != "12346010*"
  {
    Zones1();
    assert "123461*"[5] != "123460*"[5];
  }

  lemma NoZones()
    ensures BuildBypassString([], "1234") == ""
    ensures BuildBypassString([], "") == ""
  {
  }

  /** The first digit after the bypass key of a positive zone is never `0`. */
  lemma NoLeadingZeros(zone: int, code: string)
    requires zone > 0
    ensures var cmd := BuildBypassString([zone], code);
      cmd[|code|] == '6' && cmd[|code| + 1] != '0'
  {
    ZoneInCommand([zone], code, 0);
    assert [zone][..0] == [];
  }

  /** The six single-zone cases of the format test, and the zero-padded patterns it looks for. */
  const CheckedZones: seq<int> := [1, 5, 10, 15, 100, 101]
  const ExpectedResults: seq<string> := ["123461*", "123465*", "1234610*", "1234615*", "12346100*", "12346101*"]
  const ZeroPaddedPatterns: seq<string> := ["601*", "605*", "6010*", "6015*", "60100*", "60101*"]

  /** No bypass key `6` in `s` is followed by a `0`. */
  predicate NoZeroAfterKey(s: string)
  {
    forall i :: 0 <= i < |s| - 1 ==> s[i] == '6' ==> s[i + 1] != '0'
  }

  /** Each of the six results is the expected string, and none contains any of the six zero-padded patterns. */
  lemma NoLeadingZeroPatterns()
    ensures forall i :: 0 <= i < |CheckedZones| ==> BuildBypassString([CheckedZones[i]], "1234") == ExpectedResults[i]
    ensures forall i, j :: 0 <= i < |CheckedZones| && 0 <= j < |ZeroPaddedPatterns| ==>
      !Contains(BuildBypassString([CheckedZones[i]], "1234"), ZeroPaddedPatterns[j])
  {
    forall i | 0 <= i < |CheckedZones| ensures BuildBypassString([CheckedZones[i]], "1234") == ExpectedResults[i] {
      CheckedZoneKeyFree(i);
    }
    forall i, j | 0 <= i < |CheckedZones| && 0 <= j < |ZeroPaddedPatterns|
      ensures !Contains(BuildBypassString([CheckedZones[i]], "1234"), ZeroPaddedPatterns[j])
    {
      CheckedZoneKeyFree(i);
      PaddedPatternShape(j);
      assert BuildBypassString([CheckedZones[i]], "1234") == ExpectedResults[i];
      KeyNotFollowedByZero(BuildBypassString([CheckedZones[i]], "1234"), ZeroPaddedPatterns[j]);
    }
  }

  /** Every zero-padded pattern starts with the key `6` and a `0`. */
  lemma PaddedPatternShape(j: nat)
    requires j < |ZeroPaddedPatterns|
    ensures var p := ZeroPaddedPatterns[j]; |p| >= 2 && p[0] == '6' && p[1] == '0'
  {
  }

  /** The six zones have no digit `6`, so the only key in their strings is followed by the zone. */
  lemma CheckedZoneKeyFree(i: nat)
    requires i < |CheckedZones|
    ensures BuildBypassString([CheckedZones[i]], "1234") == ExpectedResults[i]
    ensures NoZeroAfterKey(ExpectedResults[i])
  {
    if i == 0 {
      assert CheckedZones[0] == 1 && ExpectedResults[0] == "123461*";
      Zones1();
      assert NoZeroAfterKey("123461*");
    } else if i == 1 {
      assert CheckedZones[1] == 5 && ExpectedResults[1] == "123465*";
      Zones5();
      assert NoZeroAfterKey("123465*");
    } else if i == 2 {
      assert CheckedZones[2] == 10 && ExpectedResults[2] == "1234610*";
      Zones10();
      assert NoZeroAfterKey("1234610*");
    } else if i == 3 {
      assert CheckedZones[3] == 15 && ExpectedResults[3] == "1234615*";
      Zones15();
      assert NoZeroAfterKey("1234615*");
    } else if i == 4 {
      assert CheckedZones[4] == 100 && ExpectedResults[4] == "12346100*";
      Zones100();
      assert NoZeroAfterKey("12346100*");
    } else {
      assert CheckedZones[5] == 101 && ExpectedResults[5] == "12346101*";
      Zones101();
      assert NoZeroAfterKey("12346101*");
    }
  }

  /** A string in which no `6` is followed by `0` contains no pattern starting with `60`. */
  lemma KeyNotFollowedByZero(s: string, sub: string)
    requires |sub| >= 2 && sub[0] == '6' && sub[1] == '0'
    requires NoZeroAfterKey(s)
    ensures !Contains(s, sub)
  {
    forall i: nat | i <= |s| ensures !OccursAt(s, sub, i) {
      if i + |sub| <= |s| {
        assert s[i..i + |sub|][0] == s[i] && s[i..i + |sub|][1] == s[i + 1];
      }
    }
  }

  // The digits of short zone lists, zone by zone.
  lemma DigitsOne(a: int)
    ensures ZoneDigits([a]) == IntToDecimal(a)
  {
    assert [a][1..] == [];
    assert IntToDecimal(a) + "" == IntToDecimal(a);
  }

  lemma DigitsTwo(a: int, b: int)
    ensures ZoneDigits([a, b]) == IntToDecimal(a) + IntToDecimal(b)
  {
    assert [a, b][1..] == [b];
    DigitsOne(b);
  }

  lemma DigitsThree(a: int, b: int, c: int)
    ensures ZoneDigits([a, b, c]) == IntToDecimal(a) + IntToDecimal(b) + IntToDecimal(c)
  {
    assert [a, b, c][1..] == [b, c];
    DigitsTwo(b, c);
  }

  lemma DigitsFour(a: int, b: int, c: int, d: int)
    ensures ZoneDigits([a, b, c, d]) == IntToDecimal(a) + IntToDecimal(b) + IntToDecimal(c) + IntToDecimal(d)
  {
    assert [a, b, c, d][1..] == [b, c, d];
    DigitsThree(b, c, d);
  }

  lemma BuildOne(a: int, code: string)
    ensures BuildBypassString([a], code) == code + "6" + IntToDecimal(a) + "*"
  {
    DigitsOne(a);
  }

  lemma BuildTwo(a: int, b: int, code: string)
    ensures BuildBypassString([a, b], code) == code + "6" + (IntToDecimal(a) + IntToDecimal(b)) + "*"
  {
    DigitsTwo(a, b);
  }

  lemma BuildThree(a: int, b: int, c: int, code: string)
    ensures BuildBypassString([a, b, c], code)
      == code + "6" + (IntToDecimal(a) + IntToDecimal(b) + IntToDecimal(c)) + "*"
  {
    DigitsThree(a, b, c);
  }

  lemma BuildFour(a: int, b: int, c: int, d: int, code: string)
    ensures BuildBypassString([a, b, c, d], code)
      == code + "6" + (IntToDecimal(a) + IntToDecimal(b) + IntToDecimal(c) + IntToDecimal(d)) + "*"
  {
    DigitsFour(a, b, c, d);
  }

  // One lemma per example string.
  lemma Zones1() ensures BuildBypassString([1], "1234") == "123461*" { BuildOne(1, "1234"); }
  lemma Zones5() ensures BuildBypassString([5], "1234") == "123465*" { BuildOne(5, "1234"); }
  lemma Zones9() ensures BuildBypassString([9], "1234") == "123469*" { BuildOne(9, "1234"); }
  lemma Zones1And2() ensures BuildBypassString([1, 2], "1234") == "1234612*" { BuildTwo(1, 2, "1234"); }
  lemma Zones1And5And9() ensures BuildBypassString([1, 5, 9], "1234") == "12346159*" { BuildThree(1, 5, 9, "1234"); }
  lemma Zones7And8And9NoCode() ensures BuildBypassString([7, 8, 9], "") == "6789*" { BuildThree(7, 8, 9, ""); }
  lemma Zones10() ensures BuildBypassString([10], "1234") == "1234610*" { BuildOne(10, "1234"); }
  lemma Zones15() ensures BuildBypassString([15], "1234") == "1234615*" { BuildOne(15, "1234"); }
  lemma Zones25And30() ensures BuildBypassString([25, 30], "1234") == "123462530*" { BuildTwo(25, 30, "1234"); }
  lemma Zones99() ensures BuildBypassString([99], "1234") == "1234699*" { BuildOne(99, "1234"); }
  lemma Zones100() ensures BuildBypassString([100], "1234") == "12346100*" { BuildOne(100, "1234"); }
  lemma Zones101() ensures BuildBypassString([101], "1234") == "12346101*" { BuildOne(101, "1234"); }
  lemma Zones105And110() ensures BuildBypassString([105, 110], "1234") == "12346105110*" { BuildTwo(105, 110, "1234"); }
  lemma Zones999() ensures BuildBypassString([999], "1234") == "12346999*" { BuildOne(999, "1234"); }
  lemma Zones1And11() ensures BuildBypassString([1, 11], "1234") == "12346111*" { BuildTwo(1, 11, "1234"); }
  lemma Zones3And5And12() ensures BuildBypassString([3, 5, 12], "1234") == "123463512*" { BuildThree(3, 5, 12, "1234"); }
  lemma Zones1And50And100() ensures BuildBypassString([1, 50, 100], "1234") == "12346150100*" { BuildThree(1, 50, 100, "1234"); }
  lemma Zones5And15And25() ensures BuildBypassString([5, 15, 25], "1234") == "1234651525*" { BuildThree(5, 15, 25, "1234"); }
  lemma Zones20And30And40() ensures BuildBypassString([20, 30, 40], "1234") == "12346203040*" { BuildThree(20, 30, 40, "1234"); }
  lemma Zones100And200And300() ensures BuildBypassString([100, 200, 300], "1234") == "12346100200300*" { BuildThree(100, 200, 300, "1234"); }
  lemma Zones101And102And103() ensures BuildBypassString([101, 102, 103], "1234") == "12346101102103*" { BuildThree(101, 102, 103, "1234"); }
  lemma Zones105() ensures BuildBypassString([105], "1234") == "12346105*" { BuildOne(105, "1234"); }
  lemma Zones1010() ensures BuildBypassString([1010], "1234") == "123461010*" { BuildOne(1010, "1234"); }
  lemma Zones1NoCode() ensures BuildBypassString([1], "") == "61*" { BuildOne(1, ""); }
  lemma Zones15And25NoCode() ensures BuildBypassString([15, 25], "") == "61525*" { BuildTwo(15, 25, ""); }
  lemma Zones100And200NoCode() ensures BuildBypassString([100, 200], "") == "6100200*" { BuildTwo(100, 200, ""); }
  lemma Zones1And10And100() ensures BuildBypassString([1, 10, 100], "1234") == "12346110100*" { BuildThree(1, 10, 100, "1234"); }
  lemma Zones1And10And100And1000() ensures BuildBypassString([1, 10, 100, 1000], "1234") == "123461101001000*" { BuildFour(1, 10, 100, 1000, "1234"); }
  lemma Zones1And2And3() ensures BuildBypassString([1, 2, 3], "1234") == "12346123*" { BuildThree(1, 2, 3, "1234"); }
  lemma Zones150And151And152() ensures BuildBypassString([150, 151, 152], "1234") == "12346150151152*" { BuildThree(150, 151, 152, "1234"); }
  lemma Zones5And25And125() ensures BuildBypassString([5, 25, 125], "1234") == "12346525125*" { BuildThree(5, 25, 125, "1234"); }
}
