/** `String.fourCharCodeValue` (ComfyNotes/AppDelegate.swift): packs a
    string's UTF-16 code units into a 32-bit `FourCharCode`. */
module FourCharCode {
  import opened Wrappers

  type UInt32 = x: int | 0 <= x < 0x1_0000_0000

  /** The code units of one Unicode scalar value: itself below U+10000,
      otherwise a high and a low surrogate. */
  function CodeUnits(c: char): (u: seq<UInt16>)
    ensures 1 <= |u| <= 2
    ensures (c as int) < 0x1_0000 <==> u == [c as int]
  {
    var v := c as int;
    if v < 0x1_0000 then [v]
    else [0xD800 + (v - 0x1_0000) / 0x400, 0xDC00 + (v - 0x1_0000) % 0x400]
  }

  /** Swift's `String.utf16` view. */
  function Utf16Units(s: string): (u: seq<UInt16>)
    ensures |s| <= |u| <= 2 * |s|
    ensures (forall i :: 0 <= i < |s| ==> (s[i] as int) < 0x1_0000) ==>
              |u| == |s| && forall i :: 0 <= i < |s| ==> u[i] == s[i] as int
  {
    if s == [] then [] else CodeUnits(s[0]) + Utf16Units(s[1..])
  }

  /** `acc << 8` on a `UInt32`: the bits pushed past bit 31 are dropped. */
  function ShiftLeft8(acc: UInt32): (r: UInt32)
    ensures r == (acc % 0x100_0000) * 256
  {
    (acc * 256) % 0x1_0000_0000
  }

  /** One pass of the loop body, `result = (result << 8) + FourCharCode(char)`:
      the addition traps on overflow, which the model reports as `None`. */
  function Step(acc: UInt32, unit: UInt16): Option<UInt32> {
    var sum := ShiftLeft8(acc) + unit;
    if sum < 0x1_0000_0000 then Some(sum) else None
  }

  /** The loop as a left fold over the code units, starting from 0. */
  function Pack(units: seq<UInt16>): Option<UInt32>
    decreases |units|
  {
    if units == [] then Some(0)
    else match Pack(units[..|units| - 1])
      case None => None
      case Some(acc) => Step(acc, units[|units| - 1])
  }

  /** `fourCharCodeValue`; `None` stands for the overflow trap. */
  method FourCharCodeValue(s: string) returns (r: Option<UInt32>)
    ensures r == Pack(Utf16Units(s))
  {
    var units := Utf16Units(s);
    var result: UInt32 := 0;
    for i := 0 to |units|
      invariant Pack(units[..i]) == Some(result)
    {
      assert units[..i + 1][..i] == units[..i];
      var sum := ShiftLeft8(result) + units[i];
      if sum >= 0x1_0000_0000 {
        PackTrapIsFinal(units, i + 1);
        return None;
      }
      result := sum;
    }
    assert units[..|units|] == units;
    return Some(result);
  }

  /** Once the addition has trapped, nothing afterwards runs. */
  lemma {:induction false} PackTrapIsFinal(units: seq<UInt16>, i: nat)
    requires i <= |units| && Pack(units[..i]) == None
    ensures Pack(units) == None
    decreases |units| - i
  {
    if i == |units| {
      assert units[..i] == units;
    } else {
      assert units[..i + 1][..i] == units[..i];
      PackTrapIsFinal(units, i + 1);
    }
  }

  predicate AllBytes(units: seq<UInt16>) {
    forall i :: 0 <= i < |units| ==> units[i] < 0x100
  }

  /** The big-endian base-256 number whose digits are `units`. */
  function Base256(units: seq<UInt16>): nat
    decreases |units|
  {
    if units == [] then 0 else Base256(units[..|units| - 1]) * 256 + units[|units| - 1]
  }

  /** The last (up to) four code units. */
  function LastFour(units: seq<UInt16>): seq<UInt16> {
    if |units| <= 4 then units else units[|units| - 4..]
  }

  function Pow256(n: nat): nat {
    if n == 0 then 1 else 256 * Pow256(n - 1)
  }

  lemma {:induction false} Base256Bound(units: seq<UInt16>)
    requires AllBytes(units)
    ensures Base256(units) < Pow256(|units|)
  {
    if units != [] {
      var p := units[..|units| - 1];
      assert AllBytes(p) by {
        forall i | 0 <= i < |p| ensures p[i] < 0x100 { assert p[i] == units[i]; }
      }
      Base256Bound(p);
    }
  }

  /** With byte-sized units no addition overflows, and the loop computes the
      base-256 value of all the units, truncated to 32 bits by the shifts. */
  lemma {:induction false} PackOfBytes(units: seq<UInt16>)
    requires AllBytes(units)
    ensures Pack(units) == Some(Base256(units) % 0x1_0000_0000)
  {
    if units != [] {
      var p := units[..|units| - 1];
      var x := units[|units| - 1];
      assert AllBytes(p) by {
        forall i | 0 <= i < |p| ensures p[i] < 0x100 { assert p[i] == units[i]; }
      }
      PackOfBytes(p);
      ModOfMod(Base256(p));
      ShiftIn(Base256(p), x);
    }
  }

  lemma ModOfMod(b: nat)
    ensures (b % 0x1_0000_0000) % 0x100_0000 == b % 0x100_0000
  {
  }

  lemma ShiftIn(b: nat, x: int)
    requires 0 <= x < 256
    ensures (b * 256 + x) % 0x1_0000_0000 == (b % 0x100_0000) * 256 + x
  {
  }

  /** Only the last four units survive the shifts. */
  lemma Base256KeepsLastFour(units: seq<UInt16>)
    requires AllBytes(units)
    ensures Base256(units) % 0x1_0000_0000 == Base256(LastFour(units))
  {
    var n := |units|;
    if n <= 4 {
      Base256Bound(units);
      Pow256UpToFour(n);
    } else {
      var t := units[n - 4..];
      Base256SplitLastFour(units);
      assert AllBytes(t) by {
        forall i | 0 <= i < 4 ensures t[i] < 0x100 { assert t[i] == units[n - 4 + i]; }
      }
      Base256Bound(t);
      Pow256UpToFour(4);
      DropMultiple(Base256(units[..n - 4]), Base256(t));
    }
  }

  lemma Pow256UpToFour(k: nat)
    requires k <= 4
    ensures Pow256(k) <= 0x1_0000_0000
  {
    assert Pow256(1) == 256;
    assert Pow256(2) == 0x1_0000;
    assert Pow256(3) == 0x100_0000;
    assert Pow256(4) == 0x1_0000_0000;
  }

  lemma DropMultiple(k: nat, v: int)
    requires 0 <= v < 0x1_0000_0000
    ensures (k * 0x1_0000_0000 + v) % 0x1_0000_0000 == v
  {
  }

  lemma Base256SplitLastFour(units: seq<UInt16>)
    requires |units| >= 4
    ensures Base256(units) == Base256(units[..|units| - 4]) * 0x1_0000_0000 + Base256(units[|units| - 4..])
  {
    var n := |units|;
    var t := units[n - 4..];
    Base256OfFour(t);
    assert t[0] == units[n - 4] && t[1] == units[n - 3] && t[2] == units[n - 2] && t[3] == units[n - 1];
    var p1, p2, p3, p4 := units[..n - 1], units[..n - 2], units[..n - 3], units[..n - 4];
    assert p1[..n - 2] == p2 && p2[..n - 3] == p3 && p3[..n - 4] == p4;
    var b0, b1, b2, b3, b4 := Base256(units), Base256(p1), Base256(p2), Base256(p3), Base256(p4);
    assert b0 == b1 * 256 + units[n - 1];
    assert b1 == b2 * 256 + units[n - 2];
    assert b2 == b3 * 256 + units[n - 3];
    assert b3 == b4 * 256 + units[n - 4];
  }

  lemma Base256OfFour(t: seq<UInt16>)
    requires |t| == 4
    ensures Base256(t) == t[0] as int * 0x100_0000 + t[1] as int * 0x1_0000 + t[2] as int * 0x100 + t[3] as int
  {
    assert t[..3][..2] == t[..2] && t[..2][..1] == t[..1] && t[..1][..0] == [];
    assert Base256(t[..1]) == t[0];
    assert Base256(t[..2]) == t[0] as int * 0x100 + t[1] as int;
    assert Base256(t[..3]) == t[0] as int * 0x1_0000 + t[1] as int * 0x100 + t[2] as int;
  }

  /** Byte-sized units pack, big-endian, the last (up to) four of them. */
  lemma PackKeepsLastFourBytes(units: seq<UInt16>)
    requires AllBytes(units)
    ensures Pack(units) == Some(Base256(LastFour(units)))
  {
    PackOfBytes(units);
    Base256KeepsLastFour(units);
  }

  lemma {:induction false} Base256Injective(a: seq<UInt16>, b: seq<UInt16>)
    requires AllBytes(a) && AllBytes(b) && |a| == |b|
    requires Base256(a) == Base256(b)
    ensures a == b
  {
    if a != [] {
      var pa, pb := a[..|a| - 1], b[..|b| - 1];
      assert AllBytes(pa) by {
        forall i | 0 <= i < |pa| ensures pa[i] < 0x100 { assert pa[i] == a[i]; }
      }
      assert AllBytes(pb) by {
        forall i | 0 <= i < |pb| ensures pb[i] < 0x100 { assert pb[i] == b[i]; }
      }
      assert a[|a| - 1] == b[|b| - 1];
      Base256Injective(pa, pb);
      assert a == pa + [a[|a| - 1]] && b == pb + [b[|b| - 1]];
    }
  }

  /** Distinct strings of the same length (at most four) whose characters
      are all below U+0100 get distinct codes. Strings of different lengths
      can collide: "\0a" and "a" both give 0x61. */
  lemma DistinctCodesForShortByteStrings(s1: string, s2: string)
    requires |s1| == |s2| <= 4
    requires forall i :: 0 <= i < |s1| ==> (s1[i] as int) < 0x100
    requires forall i :: 0 <= i < |s2| ==> (s2[i] as int) < 0x100
    requires s1 != s2
    ensures Pack(Utf16Units(s1)) != Pack(Utf16Units(s2))
  {
    var u1, u2 := Utf16Units(s1), Utf16Units(s2);
    PackKeepsLastFourBytes(u1);
    PackKeepsLastFourBytes(u2);
    if Base256(u1) == Base256(u2) {
      Base256Injective(u1, u2);
    }
  }

  lemma LeadingZeroUnitCollides()
    ensures Pack(Utf16Units("\0a")) == Pack(Utf16Units("a")) == Some(0x61)
  {
  }

  /** The launcher's hotkey signature "cmfy" packs to 0x636D6679. */
  lemma CmfyCode()
    ensures Pack(Utf16Units("cmfy")) == Some(0x636D6679)
  {
    var u := Utf16Units("cmfy");
    assert u == [0x63, 0x6D, 0x66, 0x79];
    PackKeepsLastFourBytes(u);
    Base256OfFour(u);
  }

  /** A unit of 256 or more can make the addition overflow, which traps. */
  lemma WideUnitCanTrap()
    ensures Pack([0xFF, 0xFF, 0xFF, 0xFF, 0x100]) == None
  {
    var u: seq<UInt16> := [0xFF, 0xFF, 0xFF, 0xFF];
    PackKeepsLastFourBytes(u);
    Base256OfFour(u);
    assert [0xFF, 0xFF, 0xFF, 0xFF, 0x100][..4] == u;
  }
}
