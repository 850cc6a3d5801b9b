/**
 * The Python string and number primitives the integration relies on:
 * `str(int)`, `int(str)`, `int(str, 16)`, `bin(int)[2:]`, `str.split`,
 * the substring test `sub in s`, slicing `s[i:j]` and reversal `s[::-1]`.
 */
module Text {
  import opened Wrappers

  function Min(a: int, b: int): int { if a <= b then a else b }

  // ---------------------------------------------------------------------------
  // Decimal digits: str(n) and int(s)
  // ---------------------------------------------------------------------------

  predicate IsDigit(c: char) { '0' <= c <= '9' }

  predicate AllDigits(s: string) { forall i :: 0 <= i < |s| ==> IsDigit(s[i]) }

  function DigitChar(d: nat): (c: char)
    requires d < 10
    ensures IsDigit(c) && c as int - '0' as int == d
  {
    ('0' as int + d) as char
  }

  function DigitValue(c: char): nat
    requires IsDigit(c)
  {
    c as int - '0' as int
  }

  /** `str(n)` for a non-negative integer: decimal digits, no leading zeros. */
  function NatToDecimal(n: nat): (s: string)
    ensures |s| >= 1 && AllDigits(s)
    ensures s[0] == '0' <==> n == 0
    ensures n == 0 ==> s == "0"
  {
    if n < 10 then [DigitChar(n)] else NatToDecimal(n / 10) + [DigitChar(n % 10)]
  }

  /** `str(z)` for any integer: a minus sign before the digits of a negative one. */
  function IntToDecimal(z: int): (s: string)
    ensures |s| >= 1
    ensures z >= 0 <==> IsDigit(s[0])
    ensures z < 0 <==> s[0] == '-'
  {
    if z < 0 then "-" + NatToDecimal(-z) else NatToDecimal(z)
  }

  /** The number a string of decimal digits denotes (leading zeros allowed). */
  function DecimalValue(s: string): nat
    requires AllDigits(s)
  {
    if s == [] then 0 else DecimalValue(s[..|s| - 1]) * 10 + DigitValue(s[|s| - 1])
  }

  /**
   * Python's `int(s)` on a decimal string: an optional `+` or `-` sign followed
   * by at least one ASCII digit. `None` stands for the `ValueError` it raises.
   */
  function ParseInt(s: string): Option<int>
  {
    if |s| > 0 && (s[0] == '+' || s[0] == '-') then
      var body := s[1..];
      if |body| > 0 && AllDigits(body) then
        var v: int := DecimalValue(body);
        Some(if s[0] == '-' then -v else v)
      else None
    else if |s| > 0 && AllDigits(s) then Some(DecimalValue(s))
    else None
  }

  /** Reading back the decimal rendering of `n` gives `n`. */
  lemma {:induction false} DecimalRoundTrip(n: nat)
    ensures DecimalValue(NatToDecimal(n)) == n
  {
    if n >= 10 {
      var t := NatToDecimal(n / 10);
      var s := t + [DigitChar(n % 10)];
      assert s[..|s| - 1] == t;
      DecimalRoundTrip(n / 10);
    }
  }

  /** `int(str(z)) == z` for every integer `z`. */
  lemma ParseIntRoundTrip(z: int)
    ensures ParseInt(IntToDecimal(z)) == Some(z)
  {
    if z < 0 {
      DecimalRoundTrip(-z);
      ParseMinus(NatToDecimal(-z));
      assert IntToDecimal(z) == "-" + NatToDecimal(-z);
    } else {
      DecimalRoundTrip(z);
      ParseDigits(NatToDecimal(z));
      assert IntToDecimal(z) == NatToDecimal(z);
    }
  }

  /** A minus sign before a non-empty digit string negates its value. */
  lemma ParseMinus(d: string)
    requires d != "" && AllDigits(d)
    ensures ParseInt("-" + d) == Some(-(DecimalValue(d) as int))
  {
    var s := "-" + d;
    assert s[0] == '-' && s[1..] == d;
  }

  /** A non-empty digit string parses as its decimal value. */
  lemma ParseDigits(s: string)
    requires s != "" && AllDigits(s)
    ensures ParseInt(s) == Some(DecimalValue(s))
  {
    assert IsDigit(s[0]);
  }

  /** A leading zero does not change the value of a digit string. */
  lemma {:induction false} LeadingZeroIgnored(s: string)
    requires AllDigits(s)
    ensures AllDigits("0" + s) && DecimalValue("0" + s) == DecimalValue(s)
  {
    if s != [] {
      var t := "0" + s;
      assert t[..|t| - 1] == "0" + s[..|s| - 1];
      LeadingZeroIgnored(s[..|s| - 1]);
    }
  }

  // ---------------------------------------------------------------------------
  // str.split(sep) and the substring test
  // ---------------------------------------------------------------------------

  /** Python's `s.split(sep)` for a one-character separator. */
  function Split(s: string, sep: char): (parts: seq<string>)
    ensures |parts| >= 1
    decreases |s|
  {
    if s == [] then [""]
    else
      var rest := Split(s[1..], sep);
      if s[0] == sep then [""] + rest else [[s[0]] + rest[0]] + rest[1..]
  }

  /** No part of a split holds the separator. */
  lemma {:induction false} SplitPartsLackSeparator(s: string, sep: char)
    ensures forall i, k :: 0 <= i < |Split(s, sep)| && 0 <= k < |Split(s, sep)[i]| ==> Split(s, sep)[i][k] != sep
    decreases |s|
  {
    if s != [] {
      var rest := Split(s[1..], sep);
      SplitPartsLackSeparator(s[1..], sep);
      var parts := Split(s, sep);
      if s[0] == sep {
        assert parts == [""] + rest;
        assert forall i :: 1 <= i < |parts| ==> parts[i] == rest[i - 1];
      } else {
        assert parts == [[s[0]] + rest[0]] + rest[1..];
        forall i, k | 0 <= i < |parts| && 0 <= k < |parts[i]| ensures parts[i][k] != sep {
          if i == 0 {
            if k > 0 { assert parts[0][k] == rest[0][k - 1]; }
          } else {
            assert parts[i] == rest[i];
          }
        }
      }
    }
  }

  /** Joining the parts with the separator gives back the string. */
  function Join(parts: seq<string>, sep: char): string
    requires |parts| >= 1
  {
    if |parts| == 1 then parts[0] else parts[0] + [sep] + Join(parts[1..], sep)
  }

  lemma {:induction false} SplitJoin(s: string, sep: char)
    ensures Join(Split(s, sep), sep) == s
    decreases |s|
  {
    if s != [] {
      var rest := Split(s[1..], sep);
      SplitJoin(s[1..], sep);
      if s[0] == sep {
        assert Split(s, sep)[1..] == rest;
      } else if |rest| == 1 {
      } else {
        var parts := Split(s, sep);
        assert parts[1..] == rest[1..];
        assert Join(rest, sep) == rest[0] + [sep] + Join(rest[1..], sep);
      }
    }
  }

  /** Splitting at a separator between two strings concatenates their splits. */
  lemma {:induction false} SplitAround(a: string, sep: char, b: string)
    ensures Split(a + [sep] + b, sep) == Split(a, sep) + Split(b, sep)
    decreases |a|
  {
    if a == [] {
      assert a + [sep] + b == [sep] + b;
      assert ([sep] + b)[1..] == b;
    } else {
      assert (a + [sep] + b)[1..] == a[1..] + [sep] + b;
      SplitAround(a[1..], sep, b);
    }
  }

  /** A string without the separator splits into itself alone. */
  lemma {:induction false} SplitWithoutSeparator(s: string, sep: char)
    requires forall i :: 0 <= i < |s| ==> s[i] != sep
    ensures Split(s, sep) == [s]
    decreases |s|
  {
    if s != [] {
      SplitWithoutSeparator(s[1..], sep);
      assert [s[0]] + s[1..] == s;
    }
  }

  /** `sub` occurs in `s` starting at index `i`. */
  predicate OccursAt(s: string, sub: string, i: nat)
  {
    i + |sub| <= |s| && s[i..i + |sub|] == sub
  }

  /** Python's `sub in s` for strings. */
  predicate Contains(s: string, sub: string)
  {
    exists i: nat :: i <= |s| && OccursAt(s, sub, i)
  }

  lemma ContainsSuffix(a: string, sub: string)
    ensures Contains(a + sub, sub)
  {
    assert OccursAt(a + sub, sub, |a|) by {
      assert (a + sub)[|a|..|a| + |sub|] == sub;
    }
  }

  // ---------------------------------------------------------------------------
  // Slicing and reversal
  // ---------------------------------------------------------------------------

  /** Python's `s[i:j]` for non-negative bounds: both ends are clamped to `len(s)`. */
  function PySlice(s: string, i: nat, j: nat): (r: string)
    ensures |r| == if Min(j, |s|) <= Min(i, |s|) then 0 else Min(j, |s|) - i
    ensures forall k :: 0 <= k < |r| ==> r[k] == s[i + k]
  {
    var lo, hi := Min(i, |s|), Min(j, |s|);
    if lo <= hi then s[lo..hi] else ""
  }

  /** Python's `s[::-1]`. */
  function Reverse(s: string): (r: string)
    ensures |r| == |s|
    ensures forall k :: 0 <= k < |s| ==> r[k] == s[|s| - 1 - k]
  {
    if s == [] then [] else Reverse(s[1..]) + [s[0]]
  }

  lemma {:induction false} ReverseSameLetters(s: string)
    ensures multiset(Reverse(s)) == multiset(s)
  {
    if s != [] {
      ReverseSameLetters(s[1..]);
      assert s == [s[0]] + s[1..];
    }
  }

  // ---------------------------------------------------------------------------
  // Base 2 and base 16
  // ---------------------------------------------------------------------------

  predicate IsBit(c: char) { c == '0' || c == '1' }

  predicate AllBits(s: string) { forall i :: 0 <= i < |s| ==> IsBit(s[i]) }

  /** `bin(n)[2:]`: binary digits of `n` with no leading zeros; `0` gives "0". */
  function ToBinary(n: nat): (b: string)
    ensures |b| >= 1 && AllBits(b)
    ensures b[0] == '1' <==> n > 0
    ensures n == 0 ==> b == "0"
  {
    if n < 2 then (if n == 0 then "0" else "1")
    else ToBinary(n / 2) + (if n % 2 == 0 then "0" else "1")
  }

  /** The number a string of binary digits denotes. */
  function BinaryValue(b: string): nat
    requires AllBits(b)
  {
    if b == [] then 0 else BinaryValue(b[..|b| - 1]) * 2 + (if b[|b| - 1] == '1' then 1 else 0)
  }

  lemma {:induction false} BinaryRoundTrip(n: nat)
    ensures BinaryValue(ToBinary(n)) == n
  {
    if n >= 2 {
      var t := ToBinary(n / 2);
      var b := ToBinary(n);
      assert b[..|b| - 1] == t;
      BinaryRoundTrip(n / 2);
    }
  }

  predicate IsHexDigit(c: char)
  {
    '0' <= c <= '9' || 'a' <= c <= 'f' || 'A' <= c <= 'F'
  }

  /** What `int(s, 16)` accepts here: a non-empty string of hexadecimal digits. */
  predicate IsHexString(s: string)
  {
    |s| > 0 && forall i :: 0 <= i < |s| ==> IsHexDigit(s[i])
  }

  function HexDigitValue(c: char): (d: nat)
    requires IsHexDigit(c)
    ensures d < 16
  {
    if '0' <= c <= '9' then c as int - '0' as int
    else if 'a' <= c <= 'f' then c as int - 'a' as int + 10
    else c as int - 'A' as int + 10
  }

  function Pow(base: nat, e: nat): nat
  {
    if e == 0 then 1 else base * Pow(base, e - 1)
  }

  /** `int(s, 16)` on hexadecimal digits; the value fits in `4 * len(s)` bits. */
  function HexValue(s: string): (v: nat)
    requires forall i :: 0 <= i < |s| ==> IsHexDigit(s[i])
    ensures v < Pow(16, |s|)
  {
    if s == [] then 0 else HexValue(s[..|s| - 1]) * 16 + HexDigitValue(s[|s| - 1])
  }
  function BitChar(b: nat): (c: char)
    requires b < 2
    ensures IsBit(c)
  {
    if b == 0 then '0' else '1'
  }

  /** The four binary digits of a hexadecimal digit's value, highest first. */
  function Nibble(d: nat): (b: string)
    requires d < 16
    ensures |b| == 4 && AllBits(b)
  {
    [BitChar(d / 8), BitChar(d / 4 % 2), BitChar(d / 2 % 2), BitChar(d % 2)]
  }

  /** Each hexadecimal digit written out as its four binary digits, in order. */
  function HexBits(s: string): (b: string)
    requires forall i :: 0 <= i < |s| ==> IsHexDigit(s[i])
    ensures |b| == 4 * |s| && AllBits(b)
  {
    if s == [] then [] else HexBits(s[..|s| - 1]) + Nibble(HexDigitValue(s[|s| - 1]))
  }

  lemma ShiftLeft(x: int, p: int, y: int, e: int)
    ensures (x * p + y) * 2 + e == x * (2 * p) + (y * 2 + e)
  {
  }

  lemma {:induction false} BinaryValueConcat(a: string, b: string)
    requires AllBits(a) && AllBits(b)
    ensures BinaryValue(a + b) == BinaryValue(a) * Pow(2, |b|) + BinaryValue(b)
  {
    if b == [] {
      assert a + b == a;
    } else {
      var c := a + b;
      var b' := b[..|b| - 1];
      assert c[..|c| - 1] == a + b';
      assert c[|c| - 1] == b[|b| - 1];
      BinaryValueConcat(a, b');
      var p, x, y, e := Pow(2, |b'|), BinaryValue(a), BinaryValue(b'), if b[|b| - 1] == '1' then 1 else 0;
      assert BinaryValue(c) == BinaryValue(a + b') * 2 + e;
      assert BinaryValue(b) == y * 2 + e;
      assert Pow(2, |b|) == 2 * p;
      ShiftLeft(x, p, y, e);
    }
  }

  lemma NibbleDigits(d: nat)
    requires d < 16
    ensures d / 8 < 2 && d == ((d / 8 * 2 + d / 4 % 2) * 2 + d / 2 % 2) * 2 + d % 2
  {
  }

  lemma NibbleValue(d: nat)
    requires d < 16
    ensures BinaryValue(Nibble(d)) == d
  {
    var b3, b2, b1, b0 := d / 8, d / 4 % 2, d / 2 % 2, d % 2;
    NibbleDigits(d);
    var n := Nibble(d);
    var n1, n2, n3 := n[..1], n[..2], n[..3];
    assert n1[..0] == [];
    assert BinaryValue(n1) == b3;
    assert n2[..1] == n1;
    assert BinaryValue(n2) == b3 * 2 + b2;
    assert n3[..2] == n2;
    assert BinaryValue(n3) == (b3 * 2 + b2) * 2 + b1;
    assert BinaryValue(n) == ((b3 * 2 + b2) * 2 + b1) * 2 + b0;
  }

  /** The digits' four-bit renderings read back, in base 2, to `int(s, 16)`. */
  lemma {:induction false} HexBitsValue(s: string)
    requires forall i :: 0 <= i < |s| ==> IsHexDigit(s[i])
    ensures BinaryValue(HexBits(s)) == HexValue(s)
  {
    if s != [] {
      var d := HexDigitValue(s[|s| - 1]);
      HexBitsValue(s[..|s| - 1]);
      BinaryValueConcat(HexBits(s[..|s| - 1]), Nibble(d));
      NibbleValue(d);
      assert Pow(2, 4) == 16;
    }
  }

  /** Appending one binary digit to a positive number's digits doubles it and adds the digit. */
  lemma ToBinaryBit(v: nat, b: nat)
    requires v > 0 && b < 2
    ensures ToBinary(2 * v + b) == ToBinary(v) + [BitChar(b)]
  {
    assert (2 * v + b) / 2 == v && (2 * v + b) % 2 == b;
  }

  /** Appending two binary digits multiplies by four and adds their value. */
  lemma ToBinaryTwoBits(v: nat, h: nat, l: nat)
    requires v > 0 && h < 2 && l < 2
    ensures ToBinary(4 * v + 2 * h + l) == ToBinary(v) + [BitChar(h), BitChar(l)]
  {
    ToBinaryBit(v, h);
    assert 4 * v + 2 * h + l == 2 * (2 * v + h) + l;
    ToBinaryBit(2 * v + h, l);
    assert ToBinary(v) + [BitChar(h)] + [BitChar(l)] == ToBinary(v) + [BitChar(h), BitChar(l)];
  }

  lemma ToBinaryNibble(v: nat, d: nat)
    requires v > 0 && d < 16
    ensures ToBinary(16 * v + d) == ToBinary(v) + Nibble(d)
  {
    var b3, b2, b1, b0 := d / 8, d / 4 % 2, d / 2 % 2, d % 2;
    NibbleDigits(d);
    var w := 4 * v + 2 * b3 + b2;
    assert 16 * v + d == 4 * w + 2 * b1 + b0;
    ToBinaryTwoBits(v, b3, b2);
    ToBinaryTwoBits(w, b1, b0);
    assert Nibble(d) == [BitChar(b3), BitChar(b2)] + [BitChar(b1), BitChar(b0)];
  }

  /** A digit of 8 or more is written in binary with exactly four digits. */
  lemma ToBinaryHighNibble(d: nat)
    requires 8 <= d < 16
    ensures ToBinary(d) == Nibble(d)
  {
    var b2, b1, b0 := d / 4 % 2, d / 2 % 2, d % 2;
    NibbleDigits(d);
    var w := 2 + b2;
    assert d == 4 * w + 2 * b1 + b0;
    ToBinaryBit(1, b2);
    ToBinaryTwoBits(w, b1, b0);
    assert Nibble(d) == "1" + [BitChar(b2)] + [BitChar(b1), BitChar(b0)];
  }

  lemma {:induction false} HexValueAtLeastFirst(s: string)
    requires IsHexString(s)
    ensures HexValue(s) >= HexDigitValue(s[0])
  {
    if |s| > 1 {
      HexValueAtLeastFirst(s[..|s| - 1]);
    }
  }

  /**
   * With a first digit of 8 or more, `bin(int(s, 16))[2:]` is exactly the
   * digits' four-bit renderings side by side: `4 * len(s)` binary digits.
   */
  lemma {:induction false} BinaryOfHex(s: string)
    requires IsHexString(s) && HexDigitValue(s[0]) >= 8
    ensures ToBinary(HexValue(s)) == HexBits(s)
  {
    var d := HexDigitValue(s[|s| - 1]);
    if |s| == 1 {
      assert s[..0] == [];
      ToBinaryHighNibble(d);
      assert HexBits(s) == Nibble(d);
    } else {
      var t := s[..|s| - 1];
      assert t[0] == s[0];
      BinaryOfHex(t);
      HexValueAtLeastFirst(t);
      ToBinaryNibble(HexValue(t), d);
    }
  }

  /** A leading `0` does not change `int(s, 16)`. */
  lemma {:induction false} HexLeadingZero(s: string)
    requires forall i :: 0 <= i < |s| ==> IsHexDigit(s[i])
    ensures HexValue("0" + s) == HexValue(s)
  {
    if s != [] {
      assert ("0" + s)[..|s|] == "0" + s[..|s| - 1];
      HexLeadingZero(s[..|s| - 1]);
    }
  }
  /** Digit `i` of `s` becomes binary digits `4 * i` to `4 * i + 3` of `HexBits(s)`. */
  lemma {:induction false} HexBitsAt(s: string, i: nat)
    requires forall k :: 0 <= k < |s| ==> IsHexDigit(s[k])
    requires i < |s|
    ensures HexBits(s)[4 * i..4 * i + 4] == Nibble(HexDigitValue(s[i]))
  {
    var t := s[..|s| - 1];
    if i < |s| - 1 {
      HexBitsAt(t, i);
      assert t[i] == s[i];
      assert HexBits(s)[4 * i..4 * i + 4] == HexBits(t)[4 * i..4 * i + 4];
    }
  }

  /** A slice splits at any point inside it. */
  lemma SliceSplit(b: string, lo: nat, mid: nat, hi: nat)
    requires lo <= mid <= hi <= |b|
    ensures b[lo..hi] == b[lo..mid] + b[mid..hi]
  {
  }

  /** Eight characters from `lo` are the four from `lo` followed by the four from `lo + 4`. */
  lemma SliceOfTwo(b: string, lo: nat, x: string, y: string)
    requires lo + 8 <= |b| && b[lo..lo + 4] == x && b[lo + 4..lo + 8] == y
    ensures b[lo..lo + 8] == x + y
  {
    SliceSplit(b, lo, lo + 4, lo + 8);
  }

  /** `HexBitsAt` with the offset `4 * i` given by name. */
  lemma HexBitsFrom(s: string, i: nat, lo: nat)
    requires forall k :: 0 <= k < |s| ==> IsHexDigit(s[k])
    requires i < |s| && lo == 4 * i
    ensures lo + 4 <= |HexBits(s)| && HexBits(s)[lo..lo + 4] == Nibble(HexDigitValue(s[i]))
  {
    HexBitsAt(s, i);
  }

  /** Digits `j` and `j + 1` of `s` become the eight binary digits from `lo = 4 * j`. */
  lemma HexPairAt(s: string, j: nat, lo: nat)
    requires forall k :: 0 <= k < |s| ==> IsHexDigit(s[k])
    requires j + 1 < |s| && lo == 4 * j
    ensures lo + 8 <= |HexBits(s)|
    ensures HexBits(s)[lo..lo + 8] == Nibble(HexDigitValue(s[j])) + Nibble(HexDigitValue(s[j + 1]))
  {
    HexBitsFrom(s, j, lo);
    HexBitsFrom(s, j + 1, lo + 4);
    SliceOfTwo(HexBits(s), lo, Nibble(HexDigitValue(s[j])), Nibble(HexDigitValue(s[j + 1])));
  }

}
