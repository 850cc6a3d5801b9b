/**
 * `extract_keypad_addresses_from_message`: which keypad addresses a raw panel
 * message is meant for. A status message starts with `[`; characters 28 to 57
 * carry a hexadecimal number whose binary digits 8 to 39 are the keypad mask,
 * stored as four groups of eight bits, each group lowest address last.
 */
module KeypadDecoder {
  import opened Wrappers
  import opened Text

  /** What the source raises on a message it cannot read. */
  datatype DecodeError =
    | EmptyMessage   // `message.raw[0]` on an empty string: IndexError
    | NotHexadecimal // `int(raw[28:58], 16)` on an empty or non-hexadecimal slice: ValueError

  /** The hexadecimal field `raw[28:58]`. */
  function StatusField(raw: string): (f: string)
    ensures |f| <= 30
  {
    PySlice(raw, 28, 58)
  }

  /** The keypad mask `bits[8:40]`, at most 32 binary digits. */
  function KeypadWindow(bits: string): (w: string)
    ensures |w| == if |bits| <= 8 then 0 else Min(40, |bits|) - 8
    ensures |w| <= 32
    ensures forall k :: 0 <= k < |w| ==> w[k] == bits[8 + k]
  {
    PySlice(bits, 8, 40)
  }

  /** The four groups `w[0:8]`, `w[8:16]`, `w[16:24]`, `w[24:35]`, each reversed, in group order. */
  function Regroup(w: string): string
  {
    Reverse(Group(w, 0)) + Reverse(Group(w, 1)) + Reverse(Group(w, 2)) + Reverse(Group(w, 3))
  }

  /** Group `gi` of the window, as the regrouping slices it. */
  function Group(w: string, gi: nat): string
  {
    PySlice(w, 8 * gi, if gi == 3 then 35 else 8 * gi + 8)
  }

  /** The ascending positions of the `'1'` characters of `s`. */
  function OnePositions(s: string): seq<nat>
  {
    if s == [] then []
    else OnePositions(s[..|s| - 1]) + (if s[|s| - 1] == '1' then [|s| - 1] else [])
  }

  /** The keypad addresses a raw message targets, or the exception the source raises. */
  function KeypadAddresses(raw: string): (r: Result<seq<nat>, DecodeError>)
    ensures r == Err(EmptyMessage) <==> raw == ""
    ensures r == Err(NotHexadecimal) <==> raw != "" && raw[0] == '[' && !IsHexString(StatusField(raw))
    ensures raw != "" && raw[0] != '[' ==> r == Ok([])
  {
    if raw == "" then Err(EmptyMessage)
    else if raw[0] != '[' then Ok([])
    else
      var field := StatusField(raw);
      if !IsHexString(field) then Err(NotHexadecimal)
      else Ok(OnePositions(Regroup(KeypadWindow(ToBinary(HexValue(field))))))
  }

  /** The keypad mask of a status message whose field is hexadecimal. */
  function MessageWindow(raw: string): string
    requires raw != "" && IsHexString(StatusField(raw))
  {
    KeypadWindow(ToBinary(HexValue(StatusField(raw))))
  }

  /** The source's routine: slice, parse, regroup, then collect the set bits in a loop. */
  method ExtractKeypadAddresses(raw: string) returns (r: Result<seq<nat>, DecodeError>)
    ensures r == KeypadAddresses(raw)
  {
    if raw == "" {
      return Err(EmptyMessage);
    }
    if raw[0] != '[' {
      return Ok([]);
    }
    var field := StatusField(raw);
    if !IsHexString(field) {
      return Err(NotHexadecimal);
    }
    var bits := ToBinary(HexValue(field));
    var unsorted := KeypadWindow(bits);
    var byte0 := Reverse(PySlice(unsorted, 0, 8));
    var byte1 := Reverse(PySlice(unsorted, 8, 16));
    var byte2 := Reverse(PySlice(unsorted, 16, 24));
    var byte3 := Reverse(PySlice(unsorted, 24, 35));
    var sorted := byte0 + byte1 + byte2 + byte3;
    assert sorted == Regroup(unsorted);
    var targets := CollectOnes(sorted);
    return Ok(targets);
  }

  /** The loop over the reassembled mask that lists the positions of its `'1'` bits. */
  method CollectOnes(sorted: string) returns (targets: seq<nat>)
    ensures targets == OnePositions(sorted)
  {
    targets := [];
    for i := 0 to |sorted|
      invariant targets == OnePositions(sorted[..i])
    {
      assert sorted[..i + 1][..i] == sorted[..i];
      if sorted[i] == '1' {
        targets := targets + [i];
      }
    }
    assert sorted[..|sorted|] == sorted;
  }

  // ---------------------------------------------------------------------------
  // What the decoded list is
  // ---------------------------------------------------------------------------

  predicate StrictlyIncreasing(s: seq<nat>)
  {
    forall i, j :: 0 <= i < j < |s| ==> s[i] < s[j]
  }

  /** Position `a` is listed exactly when `s[a]` is `'1'`. */
  lemma {:induction false} OnePositionsMembers(s: string)
    ensures forall a: nat :: a in OnePositions(s) <==> a < |s| && s[a] == '1'
  {
    if s != [] {
      var init := s[..|s| - 1];
      OnePositionsMembers(init);
      forall a: nat | a < |init| ensures s[a] == init[a] {}
    }
  }

  /** The positions are listed in increasing order, so each once. */
  lemma {:induction false} OnePositionsIncreasing(s: string)
    ensures StrictlyIncreasing(OnePositions(s))
  {
    if s != [] {
      var init := s[..|s| - 1];
      OnePositionsIncreasing(init);
      OnePositionsMembers(init);
      var p := OnePositions(init);
      if s[|s| - 1] == '1' {
        var q := p + [|init|];
        assert OnePositions(s) == q;
        forall i, j | 0 <= i < j < |q| ensures q[i] < q[j] {
          assert q[i] == p[i] && p[i] in p;
        }
      } else {
        assert OnePositions(s) == p + [];
      }
    }
  }

  /** There are as many positions as `'1'` characters. */
  lemma {:induction false} OnePositionsCount(s: string)
    ensures |OnePositions(s)| == multiset(s)['1']
  {
    if s != [] {
      var init := s[..|s| - 1];
      OnePositionsCount(init);
      assert s == init + [s[|s| - 1]];
      assert multiset(s) == multiset(init) + multiset{s[|s| - 1]};
    }
  }

  /** Characters `8g .. 8g + 7` of the mask form group `g`; the last group may be shorter. */
  function GroupLength(n: nat, g: nat): nat
  {
    if n <= 8 * g then 0 else if n - 8 * g < 8 then n - 8 * g else 8
  }

  /** Where mask character `k` lands after its group is reversed. */
  function Mirror(n: nat, k: nat): nat
    requires k < n
  {
    var g := k / 8;
    8 * g + GroupLength(n, g) - 1 - k % 8
  }

  /** The reassembled mask is the window with each group of eight reversed in place. */
  lemma RegroupMirrors(w: string)
    requires |w| <= 32
    ensures |Regroup(w)| == |w|
    ensures multiset(Regroup(w)) == multiset(w)
    ensures forall k :: 0 <= k < |w| ==> Mirror(|w|, k) < |w| && Regroup(w)[Mirror(|w|, k)] == w[k]
  {
    RegroupSameLetters(w);
    forall k | 0 <= k < |w|
      ensures Mirror(|w|, k) < |w| && Regroup(w)[Mirror(|w|, k)] == w[k]
    {
      MirrorInGroup(w, k);
    }
  }

  /** The window is its four groups put back together. */
  lemma WindowGroups(w: string)
    requires |w| <= 32
    ensures w == Group(w, 0) + Group(w, 1) + Group(w, 2) + Group(w, 3)
  {
    assert w == PySlice(w, 0, 8) + PySlice(w, 8, 16) + PySlice(w, 16, 24) + PySlice(w, 24, 35);
  }

  /** Reversing each group in place keeps the letters of the window. */
  lemma RegroupSameLetters(w: string)
    requires |w| <= 32
    ensures |Regroup(w)| == |w| && multiset(Regroup(w)) == multiset(w)
  {
    var g0, g1, g2, g3 := Group(w, 0), Group(w, 1), Group(w, 2), Group(w, 3);
    WindowGroups(w);
    ReverseSameLetters(g0);
    ReverseSameLetters(g1);
    ReverseSameLetters(g2);
    ReverseSameLetters(g3);
    assert multiset(w) == multiset(g0) + multiset(g1) + multiset(g2) + multiset(g3);
  }

  lemma MirrorInGroup(w: string, k: nat)
    requires |w| <= 32 && k < |w|
    ensures Mirror(|w|, k) < |w| && Regroup(w)[Mirror(|w|, k)] == w[k]
  {
    if k < 8 {
      MirrorInGroup0(w, k);
    } else if k < 16 {
      MirrorInGroup1(w, k);
    } else if k < 24 {
      MirrorInGroup2(w, k);
    } else {
      MirrorInGroup3(w, k);
    }
  }

  /** The regrouping written out around group `gi`. */
  lemma MirrorAt(w: string, k: nat, gi: nat, before: string, after: string)
    requires |w| <= 32 && gi < 4 && 8 * gi <= k < 8 * gi + 8 && k < |w|
    requires |before| == 8 * gi
    requires Regroup(w) == before + Reverse(Group(w, gi)) + after
    ensures Mirror(|w|, k) < |w| && Regroup(w)[Mirror(|w|, k)] == w[k]
  {
    GroupSlice(w, gi, if gi == 3 then 35 else 8 * gi + 8);
    InGroup(before, after, w, gi, Group(w, gi), k);
  }

  lemma MirrorInGroup0(w: string, k: nat)
    requires |w| <= 32 && k < |w| && k < 8
    ensures Mirror(|w|, k) < |w| && Regroup(w)[Mirror(|w|, k)] == w[k]
  {
    var rest := Reverse(Group(w, 1)) + Reverse(Group(w, 2)) + Reverse(Group(w, 3));
    AroundFirst(Reverse(Group(w, 0)), Reverse(Group(w, 1)), Reverse(Group(w, 2)), Reverse(Group(w, 3)));
    MirrorAt(w, k, 0, "", rest);
  }

  lemma MirrorInGroup1(w: string, k: nat)
    requires |w| <= 32 && k < |w| && 8 <= k < 16
    ensures Mirror(|w|, k) < |w| && Regroup(w)[Mirror(|w|, k)] == w[k]
  {
    var before := Reverse(Group(w, 0));
    var rest := Reverse(Group(w, 2)) + Reverse(Group(w, 3));
    GroupSlice(w, 0, 8);
    AroundSecond(Reverse(Group(w, 0)), Reverse(Group(w, 1)), Reverse(Group(w, 2)), Reverse(Group(w, 3)));
    MirrorAt(w, k, 1, before, rest);
  }

  lemma MirrorInGroup2(w: string, k: nat)
    requires |w| <= 32 && k < |w| && 16 <= k < 24
    ensures Mirror(|w|, k) < |w| && Regroup(w)[Mirror(|w|, k)] == w[k]
  {
    var before := Reverse(Group(w, 0)) + Reverse(Group(w, 1));
    var rest := Reverse(Group(w, 3));
    GroupSlice(w, 0, 8);
    GroupSlice(w, 1, 16);
    MirrorAt(w, k, 2, before, rest);
  }

  lemma MirrorInGroup3(w: string, k: nat)
    requires |w| <= 32 && k < |w| && 24 <= k
    ensures Mirror(|w|, k) < |w| && Regroup(w)[Mirror(|w|, k)] == w[k]
  {
    var before := Reverse(Group(w, 0)) + Reverse(Group(w, 1)) + Reverse(Group(w, 2));
    GroupSlice(w, 0, 8);
    GroupSlice(w, 1, 16);
    GroupSlice(w, 2, 24);
    AroundLast(Reverse(Group(w, 0)), Reverse(Group(w, 1)), Reverse(Group(w, 2)), Reverse(Group(w, 3)));
    MirrorAt(w, k, 3, before, "");
  }

  // Four reversed groups, bracketed around the first, the second and the last one.
  lemma AroundFirst(a: string, b: string, c: string, d: string) ensures a + b + c + d == "" + a + (b + c + d) {}
  lemma AroundSecond(a: string, b: string, c: string, d: string) ensures a + b + c + d == a + b + (c + d) {}
  lemma AroundLast(a: string, b: string, c: string, d: string) ensures a + b + c + d == a + b + c + d + "" {}

  /** The slice of window `w` starting at group `gi` and ending at `hi` has that group's length. */
  lemma GroupSlice(w: string, gi: nat, hi: nat)
    requires |w| <= 32 && gi < 4 && hi == (if gi == 3 then 35 else 8 * gi + 8)
    ensures |PySlice(w, 8 * gi, hi)| == GroupLength(|w|, gi)
  {
  }

  /** Inside reversed group `gi`, character `k` of the window lands at its mirror. */
  lemma InGroup(before: string, after: string, w: string, gi: nat, g: string, k: nat)
    requires |w| <= 32 && 8 * gi <= k < 8 * gi + 8 && k < |w|
    requires |before| == 8 * gi && |g| == GroupLength(|w|, gi)
    requires forall j :: 0 <= j < |g| ==> g[j] == w[8 * gi + j]
    ensures Mirror(|w|, k) < |w|
    ensures (before + Reverse(g) + after)[Mirror(|w|, k)] == w[k]
  {
    assert k / 8 == gi && k % 8 == k - 8 * gi;
    var j := k - 8 * gi;
    assert Mirror(|w|, k) == 8 * gi + |g| - 1 - j;
    assert Reverse(g)[|g| - 1 - j] == g[j];
  }

  /** Mirroring twice gives back the position: the reordering is a bijection. */
  lemma MirrorInvolution(n: nat, k: nat)
    requires n <= 32 && k < n
    ensures Mirror(n, k) < n && Mirror(n, Mirror(n, k)) == k
  {
  }

  /** Address `a` is decoded from a mask `w` exactly when mask bit `Mirror(a)` is set. */
  lemma RegroupedOnes(w: string)
    requires |w| <= 32
    ensures StrictlyIncreasing(OnePositions(Regroup(w)))
    ensures forall a: nat :: a in OnePositions(Regroup(w)) <==> a < |w| && w[Mirror(|w|, a)] == '1'
  {
    RegroupMirrors(w);
    MirroredOnes(w, Regroup(w));
  }

  /** The mask and its regrouping have the same number of set bits. */
  lemma RegroupedCount(w: string)
    requires |w| <= 32
    ensures |OnePositions(Regroup(w))| == multiset(w)['1']
  {
    RegroupMirrors(w);
    OnePositionsCount(Regroup(w));
  }

  lemma MirroredOnes(w: string, s: string)
    requires |s| == |w| <= 32
    requires forall k :: 0 <= k < |w| ==> Mirror(|w|, k) < |w| && s[Mirror(|w|, k)] == w[k]
    ensures StrictlyIncreasing(OnePositions(s))
    ensures forall a: nat :: a in OnePositions(s) <==> a < |w| && w[Mirror(|w|, a)] == '1'
  {
    OnePositionsMembers(s);
    OnePositionsIncreasing(s);
    forall a: nat
      ensures a in OnePositions(s) <==> a < |w| && w[Mirror(|w|, a)] == '1'
    {
      if a < |w| {
        MirrorInvolution(|w|, a);
        assert s[a] == w[Mirror(|w|, a)];
      }
    }
  }

  /**
   * A decoded status message lists, without repetition and in increasing
   * order, the addresses `a` below the mask length (so below 32) whose mirrored
   * mask bit is set; there are as many as the mask has `'1'` digits.
   */
  lemma AddressesOfStatusMessage(raw: string)
    requires raw != "" && raw[0] == '[' && IsHexString(StatusField(raw))
    ensures var w := MessageWindow(raw);
            var r := KeypadAddresses(raw);
            && r.Ok?
            && StrictlyIncreasing(r.value)
            && (forall a :: a in r.value ==> a < |w| <= 32)
            && (forall a: nat :: a in r.value <==> a < |w| && w[Mirror(|w|, a)] == '1')
            && |r.value| == multiset(w)['1']
  {
    RegroupedOnes(MessageWindow(raw));
    RegroupedCount(MessageWindow(raw));
  }

  /** Two increasing lists with the same members are the same list. */
  lemma {:induction false} IncreasingByMembers(a: seq<nat>, b: seq<nat>)
    requires StrictlyIncreasing(a) && StrictlyIncreasing(b)
    requires forall x :: x in a <==> x in b
    ensures a == b
  {
    assert a != [] ==> a[0] in b;
    assert b != [] ==> b[0] in a;
    if a != [] && b != [] {
      assert a[0] in b;
      assert b[0] in a;
      assert a[0] == b[0];
      forall x ensures x in a[1..] ==> x in b[1..] {
        TailMember(a, b, x);
      }
      forall x ensures x in b[1..] ==> x in a[1..] {
        TailMember(b, a, x);
      }
      IncreasingByMembers(a[1..], b[1..]);
    }
  }

  lemma TailMember(a: seq<nat>, b: seq<nat>, x: nat)
    requires StrictlyIncreasing(a) && StrictlyIncreasing(b) && a != [] && b != [] && a[0] == b[0]
    requires forall y :: y in a <==> y in b
    ensures x in a[1..] ==> x in b[1..]
  {
    if x in a[1..] {
      var i :| 0 <= i < |a| - 1 && a[i + 1] == x;
      assert x in b;
      var j :| 0 <= j < |b| && b[j] == x;
      assert j != 0;
      assert b[1..][j - 1] == x;
    }
  }

  /** Eight mask characters with a single `'1'`, at position `j`. */
  function OneHotGroup(j: nat): (g: string)
    requires j < 8
    ensures |g| == 8 && forall k :: 0 <= k < 8 ==> (g[k] == '1' <==> k == j)
  {
    seq(8, k => if k == j then '1' else '0')
  }

  /** The set bits of four one-hot groups. */
  lemma OneHotMask(j0: nat, j1: nat, j2: nat, j3: nat)
    requires j0 < 8 && j1 < 8 && j2 < 8 && j3 < 8
    ensures var w := OneHotGroup(j0) + OneHotGroup(j1) + OneHotGroup(j2) + OneHotGroup(j3);
            |w| == 32 && forall k :: 0 <= k < 32 ==> (w[k] == '1' <==> k == j0 || k == 8 + j1 || k == 16 + j2 || k == 24 + j3)
  {
    var g0, g1, g2, g3 := OneHotGroup(j0), OneHotGroup(j1), OneHotGroup(j2), OneHotGroup(j3);
    var w := g0 + g1 + g2 + g3;
    forall k | 0 <= k < 32
      ensures w[k] == '1' <==> k == j0 || k == 8 + j1 || k == 16 + j2 || k == 24 + j3
    {
      if k < 8 {
        assert w[k] == g0[k];
      } else if k < 16 {
        assert w[k] == g1[k - 8];
      } else if k < 24 {
        assert w[k] == g2[k - 16];
      } else {
        assert w[k] == g3[k - 24];
      }
    }
  }

  lemma MirrorOfOneHot(a: nat, j0: nat, j1: nat, j2: nat, j3: nat)
    requires a < 32 && j0 < 8 && j1 < 8 && j2 < 8 && j3 < 8
    ensures var m := Mirror(32, a);
            (m == j0 || m == 8 + j1 || m == 16 + j2 || m == 24 + j3)
            <==> (a == 7 - j0 || a == 15 - j1 || a == 23 - j2 || a == 31 - j3)
  {
    assert Mirror(32, a) == 8 * (a / 8) + 7 - a % 8;
  }

  lemma OneHotAddresses(w: string, j0: nat, j1: nat, j2: nat, j3: nat)
    requires j0 < 8 && j1 < 8 && j2 < 8 && j3 < 8 && |w| == 32
    requires forall k :: 0 <= k < 32 ==> (w[k] == '1' <==> k == j0 || k == 8 + j1 || k == 16 + j2 || k == 24 + j3)
    ensures forall a: nat :: a in OnePositions(Regroup(w)) <==> a in [7 - j0, 15 - j1, 23 - j2, 31 - j3]
  {
    RegroupedOnes(w);
    forall a: nat ensures a in OnePositions(Regroup(w)) <==> a in [7 - j0, 15 - j1, 23 - j2, 31 - j3] {
      if a < 32 {
        MirrorOfOneHot(a, j0, j1, j2, j3);
      }
    }
  }

  /**
   * A mask with one set bit in each group of eight decodes to one address per
   * group, each bit's position inside its group reversed: bit `j` of group `g`
   * is address `8 * g + 7 - j`.
   */
  lemma OneBitPerGroup(j0: nat, j1: nat, j2: nat, j3: nat)
    requires j0 < 8 && j1 < 8 && j2 < 8 && j3 < 8
    ensures OnePositions(Regroup(OneHotGroup(j0) + OneHotGroup(j1) + OneHotGroup(j2) + OneHotGroup(j3)))
            == [7 - j0, 15 - j1, 23 - j2, 31 - j3]
  {
    var w := OneHotGroup(j0) + OneHotGroup(j1) + OneHotGroup(j2) + OneHotGroup(j3);
    OneHotMask(j0, j1, j2, j3);
    RegroupedOnes(w);
    OneHotAddresses(w, j0, j1, j2, j3);
    IncreasingByMembers(OnePositions(Regroup(w)), [7 - j0, 15 - j1, 23 - j2, 31 - j3]);
  }
  /** The set bits of three one-hot groups. */
  lemma OneHotMaskOfThree(j0: nat, j1: nat, j2: nat)
    requires j0 < 8 && j1 < 8 && j2 < 8
    ensures var w := OneHotGroup(j0) + OneHotGroup(j1) + OneHotGroup(j2);
            |w| == 24 && forall k :: 0 <= k < 24 ==> (w[k] == '1' <==> k == j0 || k == 8 + j1 || k == 16 + j2)
  {
    var g0, g1, g2 := OneHotGroup(j0), OneHotGroup(j1), OneHotGroup(j2);
    var w := g0 + g1 + g2;
    forall k | 0 <= k < 24
      ensures w[k] == '1' <==> k == j0 || k == 8 + j1 || k == 16 + j2
    {
      if k < 8 {
        assert w[k] == g0[k];
      } else if k < 16 {
        assert w[k] == g1[k - 8];
      } else {
        assert w[k] == g2[k - 16];
      }
    }
  }

  lemma MirrorOfOneHotOfThree(a: nat, j0: nat, j1: nat, j2: nat)
    requires a < 24 && j0 < 8 && j1 < 8 && j2 < 8
    ensures var m := Mirror(24, a);
            (m == j0 || m == 8 + j1 || m == 16 + j2) <==> (a == 7 - j0 || a == 15 - j1 || a == 23 - j2)
  {
    assert Mirror(24, a) == 8 * (a / 8) + 7 - a % 8;
  }

  /**
   * A window of three groups, each with one set bit, decodes to one address
   * per group: bit `j` of group `g` is address `8 * g + 7 - j`.
   */
  lemma OneBitPerThreeGroups(j0: nat, j1: nat, j2: nat)
    requires j0 < 8 && j1 < 8 && j2 < 8
    ensures OnePositions(Regroup(OneHotGroup(j0) + OneHotGroup(j1) + OneHotGroup(j2))) == [7 - j0, 15 - j1, 23 - j2]
  {
    var w := OneHotGroup(j0) + OneHotGroup(j1) + OneHotGroup(j2);
    OneHotMaskOfThree(j0, j1, j2);
    RegroupedOnes(w);
    forall a: nat ensures a in OnePositions(Regroup(w)) <==> a in [7 - j0, 15 - j1, 23 - j2] {
      if a < 24 {
        MirrorOfOneHotOfThree(a, j0, j1, j2);
      }
    }
    IncreasingByMembers(OnePositions(Regroup(w)), [7 - j0, 15 - j1, 23 - j2]);
  }

  /** A status message with a hexadecimal field decodes to the set bits of its regrouped window. */
  lemma DecodesTo(raw: string, w: string, r: seq<nat>)
    requires raw != "" && raw[0] == '[' && IsHexString(StatusField(raw))
    requires MessageWindow(raw) == w && OnePositions(Regroup(w)) == r
    ensures KeypadAddresses(raw) == Ok(r)
  {
  }

  /** A byte whose only set bit is bit `j` from the top is the nibble of `d = 8 >> j` and a zero nibble. */
  lemma OneHotAsNibbles(j: nat, d: nat)
    requires j < 4 && d == [8, 4, 2, 1][j]
    ensures Nibble(d) + Nibble(0) == OneHotGroup(j)
  {
    var hi, lo, b := Nibble(d), Nibble(0), OneHotGroup(j);
    forall k | 0 <= k < 8 ensures (hi + lo)[k] == b[k] {
      if k < 4 {
        assert (hi + lo)[k] == hi[k];
      } else {
        assert (hi + lo)[k] == lo[k - 4];
      }
    }
  }

  /** The field sits at characters 28 to 37 of a 38-character status message. */
  lemma FieldOfMessage(prefix: string, f: string)
    requires |prefix| == 27 && |f| == 10
    ensures ("[" + prefix + f)[0] == '[' && StatusField("[" + prefix + f) == f
  {
    var raw := "[" + prefix + f;
    assert raw[28..38] == f;
  }

  /** Up to 40 binary digits, the window is everything after the first eight. */
  lemma WindowIsTail(bits: string)
    requires 8 <= |bits| <= 40
    ensures KeypadWindow(bits) == bits[8..]
  {
  }

  /** Hex digits `2k` and `2k + 1` that are `8 >> j` and `0` become the one-hot group `j`. */
  lemma OneHotByte(g: string, k: nat, j: nat)
    requires forall i :: 0 <= i < |g| ==> IsHexDigit(g[i])
    requires 2 * k + 1 < |g| && j < 4
    requires HexDigitValue(g[2 * k]) == [8, 4, 2, 1][j] && g[2 * k + 1] == '0'
    ensures HexBits(g)[8 * k..8 * k + 8] == OneHotGroup(j)
  {
    HexPairAt(g, 2 * k, 8 * k);
    OneHotAsNibbles(j, [8, 4, 2, 1][j]);
  }

  /** The digits `80402010`, the first at least 8, give 32 binary digits whose window holds groups 1 to 3. */
  lemma LowDigitsWindow(g: string)
    requires |g| == 8 && g[0] == '8' && g[2] == '4' && g[4] == '2' && g[6] == '1'
    requires g[1] == '0' && g[3] == '0' && g[5] == '0' && g[7] == '0'
    ensures IsHexString(g)
    ensures KeypadWindow(ToBinary(HexValue(g))) == OneHotGroup(1) + OneHotGroup(2) + OneHotGroup(3)
  {
    assert IsHexString(g);
    var bits := HexBits(g);
    assert ToBinary(HexValue(g)) == bits by {
      BinaryOfHex(g);
    }
    OneHotByte(g, 1, 1);
    OneHotByte(g, 2, 2);
    OneHotByte(g, 3, 3);
    assert KeypadWindow(bits) == bits[8..32] by { WindowIsTail(bits); }
    SliceSplit(bits, 8, 16, 32);
    SliceSplit(bits, 16, 24, 32);
  }

  /** The digits `FF80402010` give 40 binary digits whose window holds groups 0 to 3. */
  lemma FullDigitsWindow(f: string)
    requires |f| == 10 && f[0] == 'F' && f[1] == 'F'
    requires f[2] == '8' && f[4] == '4' && f[6] == '2' && f[8] == '1'
    requires f[3] == '0' && f[5] == '0' && f[7] == '0' && f[9] == '0'
    ensures IsHexString(f)
    ensures KeypadWindow(ToBinary(HexValue(f))) == OneHotGroup(0) + OneHotGroup(1) + OneHotGroup(2) + OneHotGroup(3)
  {
    assert IsHexString(f);
    var bits := HexBits(f);
    assert ToBinary(HexValue(f)) == bits by {
      BinaryOfHex(f);
    }
    OneHotByte(f, 1, 0);
    OneHotByte(f, 2, 1);
    OneHotByte(f, 3, 2);
    OneHotByte(f, 4, 3);
    assert KeypadWindow(bits) == bits[8..40] by { WindowIsTail(bits); }
    SliceSplit(bits, 8, 16, 40);
    SliceSplit(bits, 16, 24, 40);
    SliceSplit(bits, 24, 32, 40);
  }

  /** `FF80402010` has 40 binary digits; digits 8 to 39 hold one set bit per group. */
  lemma FullWidthWindow()
    ensures IsHexString("FF80402010")
    ensures KeypadWindow(ToBinary(HexValue("FF80402010")))
            == OneHotGroup(0) + OneHotGroup(1) + OneHotGroup(2) + OneHotGroup(3)
  {
    FullDigitsWindow("FF80402010");
  }

  lemma LeadingZerosDropped()
    ensures IsHexString("0080402010") && HexValue("0080402010") == HexValue("80402010")
  {
    var f, g := "0080402010", "80402010";
    assert IsHexString(f) && IsHexString(g);
    HexLeadingZero("0" + g);
    HexLeadingZero(g);
    assert f == "0" + ("0" + g);
  }

  /**
   * `0080402010`: `int(..., 16)` drops the two leading zeros, `bin` gives only
   * 32 digits, and digits 8 to 31 are three groups with one set bit each.
   */
  lemma LeadingZeroWindow()
    ensures IsHexString("0080402010")
    ensures KeypadWindow(ToBinary(HexValue("0080402010"))) == OneHotGroup(1) + OneHotGroup(2) + OneHotGroup(3)
  {
    LeadingZerosDropped();
    LowDigitsWindow("80402010");
  }

  /** A status message whose field `FF80402010` fills all 40 bits targets one keypad per group. */
  lemma FullWidthField(prefix: string)
    requires |prefix| == 27
    ensures KeypadAddresses("[" + prefix + "FF80402010") == Ok([7, 14, 21, 28])
  {
    var raw := "[" + prefix + "FF80402010";
    var w := OneHotGroup(0) + OneHotGroup(1) + OneHotGroup(2) + OneHotGroup(3);
    assert raw != "" && raw[0] == '[' && IsHexString(StatusField(raw)) && MessageWindow(raw) == w by {
      FieldOfMessage(prefix, "FF80402010");
      FullWidthWindow();
    }
    assert OnePositions(Regroup(w)) == [7, 14, 21, 28] by {
      OneBitPerGroup(0, 1, 2, 3);
    }
    DecodesTo(raw, w, [7, 14, 21, 28]);
  }

  /**
   * The same low digits behind two leading zeros: the window starts one group
   * later in the value, so every address moves down and one group is lost.
   */
  lemma LeadingZeroField(prefix: string)
    requires |prefix| == 27
    ensures KeypadAddresses("[" + prefix + "0080402010") == Ok([6, 13, 20])
  {
    var raw := "[" + prefix + "0080402010";
    var w := OneHotGroup(1) + OneHotGroup(2) + OneHotGroup(3);
    assert raw != "" && raw[0] == '[' && IsHexString(StatusField(raw)) && MessageWindow(raw) == w by {
      FieldOfMessage(prefix, "0080402010");
      LeadingZeroWindow();
    }
    assert OnePositions(Regroup(w)) == [6, 13, 20] by {
      OneBitPerThreeGroups(1, 2, 3);
    }
    DecodesTo(raw, w, [6, 13, 20]);
  }
}
