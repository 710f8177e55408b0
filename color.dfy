/**
 * Colour presets and the hexadecimal colour decoder `Color::from_hex`.
 *
 * The decoder walks the string from its last character to its first, keeping a
 * positional weight `base` (a power of 16) and an accumulator. Only ASCII digits
 * and ASCII upper-case letters are recognised; every other character is skipped
 * and does not advance `base`. Upper-case letters past 'F' are accepted too and
 * weigh 16 ('G') to 35 ('Z').
 */
module Color {
  import opened Prelude

  const DEFAULT: Int32 := 0
  const AQUA: Int32 := 1752220
  const DARK_AQUA: Int32 := 1146986
  const GREEN: Int32 := 5763719
  const DARK_GREEN: Int32 := 2067276
  const BLUE: Int32 := 3447003
  const DARK_BLUE: Int32 := 2123412
  const PURPLE: Int32 := 10181046
  const DARK_PURPLE: Int32 := 7419530
  const PINK: Int32 := 15277667
  const DARK_PINK: Int32 := 11342935
  const GOLD: Int32 := 15844367
  const DARK_GOLD: Int32 := 12745742
  const ORANGE: Int32 := 15105570
  const DARK_ORANGE: Int32 := 11027200
  const RED: Int32 := 15548997
  const DARK_RED: Int32 := 10038562
  const GREY: Int32 := 9807270
  const DARK_GREY: Int32 := 9936031
  const DARKER_GREY: Int32 := 8359053
  const LIGHT_GREY: Int32 := 12370112
  const NAVY: Int32 := 3426654
  const DARK_NAVY: Int32 := 2899536
  const YELLOW: Int32 := 16776960

  /** Every named preset, in declaration order. */
  const NamedColors: seq<Int32> := [
    DEFAULT, AQUA, DARK_AQUA, GREEN, DARK_GREEN, BLUE, DARK_BLUE, PURPLE,
    DARK_PURPLE, PINK, DARK_PINK, GOLD, DARK_GOLD, ORANGE, DARK_ORANGE, RED,
    DARK_RED, GREY, DARK_GREY, DARKER_GREY, LIGHT_GREY, NAVY, DARK_NAVY, YELLOW
  ]

  /** The largest 24-bit RGB value. */
  const MaxRgb: int := 0xFF_FFFF

  /** Every preset is a 24-bit RGB value. */
  lemma NamedColorsAreRgb()
    ensures |NamedColors| == 24
    ensures forall i :: 0 <= i < |NamedColors| ==> 0 <= NamedColors[i] <= MaxRgb
  {
  }

  // ---------------------------------------------------------------------------
  // Character classes

  /** `from_hex` panics on non-ASCII input: it indexes by byte but reads by character. */
  predicate IsAscii(s: string) {
    forall i :: 0 <= i < |s| ==> s[i] < 128 as char
  }

  /** `char::is_digit(10)`. */
  predicate IsDigit(c: char) {
    '0' <= c <= '9'
  }

  /** `char::is_ascii_uppercase()`. */
  predicate IsUpper(c: char) {
    'A' <= c <= 'Z'
  }

  /** A character the decoder gives a digit value to. */
  predicate Recognised(c: char) {
    IsDigit(c) || IsUpper(c)
  }

  /** The value the decoder gives a recognised character: 0..9 for digits, 10..35 for 'A'..'Z'. */
  function DigitValue(c: char): (v: nat)
    requires Recognised(c)
    ensures v < 36
    ensures v < 10 <==> IsDigit(c)
  {
    if IsDigit(c) then c as int - '0' as int else c as int - 'A' as int + 10
  }

  /** What a character adds at weight one: its digit value, or nothing when skipped. */
  function Weight(c: char): nat {
    if Recognised(c) then DigitValue(c) else 0
  }

  function Pow16(k: nat): (r: nat)
    ensures r >= 1
  {
    if k == 0 then 1 else 16 * Pow16(k - 1)
  }

  /** The number of recognised characters of `s`: how far `base` advances over `s`. */
  function Count(s: string): nat {
    if s == [] then 0 else (if Recognised(s[0]) then 1 else 0) + Count(s[1..])
  }

  // ---------------------------------------------------------------------------
  // The decoder

  /**
   * The decoder's value of `s`: each recognised character weighs
   * 16^(number of recognised characters to its right).
   */
  function HexValue(s: string): (v: nat)
    ensures Count(s) == 0 ==> v == 0
  {
    if s == [] then 0 else Weight(s[0]) * Pow16(Count(s[1..])) + HexValue(s[1..])
  }

  /** `Color::from_hex`: the loop of the source, on `i32` locals. */
  method FromHex(hex: string) returns (r: Int32)
    requires IsAscii(hex)
    requires Count(hex) <= 7
    ensures r == HexValue(hex)
  {
    var base: Int32 := 1;
    var decVal: Int32 := 0;
    for i := |hex| downto 0
      invariant decVal == HexValue(hex[i..])
      invariant base == Pow16(Count(hex[i..]))
      invariant Count(hex[i..]) <= 7
    {
      var c := hex[i];
      assert hex[i..][1..] == hex[i + 1..];
      CountSuffixLe(hex, i);
      FitsInt32(hex[i..]);
      if IsDigit(c) {
        decVal := decVal + (c as int - '0' as int) * base;
        base := base * 16;
      } else if IsUpper(c) {
        decVal := decVal + (c as int - 'A' as int + 10) * base;
        base := base * 16;
      }
    }
    assert hex[0..] == hex;
    r := decVal;
  }

  // ---------------------------------------------------------------------------
  // Helper facts about Count and Pow16

  lemma {:induction false} CountSuffixLe(s: string, i: nat)
    requires i <= |s|
    ensures Count(s[i..]) <= Count(s)
  {
    if i > 0 {
      assert s[1..][i - 1..] == s[i..];
      CountSuffixLe(s[1..], i - 1);
    }
  }

  lemma {:induction false} CountAppend(s: string, c: char)
    ensures Count(s + [c]) == Count(s) + (if Recognised(c) then 1 else 0)
  {
    if s != [] {
      assert (s + [c])[1..] == s[1..] + [c];
      CountAppend(s[1..], c);
    } else {
      assert [c][1..] == [];
    }
  }

  lemma {:induction false} Pow16Monotone(a: nat, b: nat)
    requires a <= b
    ensures Pow16(a) <= Pow16(b)
  {
    if a < b {
      Pow16Monotone(a, b - 1);
    }
  }

  lemma Pow16Values()
    ensures Pow16(6) == 0x100_0000
    ensures Pow16(7) == 0x1000_0000
  {
    assert Pow16(1) == 16;
    assert Pow16(2) == 0x100;
    assert Pow16(3) == 0x1000;
    assert Pow16(4) == 0x1_0000;
    assert Pow16(5) == 0x10_0000;
  }

  /** With at most 7 recognised characters both locals of the loop stay inside `i32`. */
  lemma FitsInt32(s: string)
    requires Count(s) <= 7
    ensures Pow16(Count(s)) <= 0x1000_0000
    ensures HexValue(s) < 0x8000_0000
  {
    Pow16Values();
    Pow16Monotone(Count(s), 7);
    HexValueBelow(s);
  }

  // ---------------------------------------------------------------------------
  // Properties of the decoder

  /**
   * Any string decodes below 3 * 16^k, k its number of recognised characters
   * (every digit value is at most 35 < 3 * 16).
   */
  lemma {:induction false} HexValueBelow(s: string)
    ensures HexValue(s) < 3 * Pow16(Count(s))
  {
    if s != [] {
      var k := Count(s[1..]);
      var p := Pow16(k);
      var w := Weight(s[0]);
      HexValueBelow(s[1..]);
      MulLe(w, 35, p);
      if Recognised(s[0]) {
        assert Count(s) == k + 1;
        assert Pow16(k + 1) == 16 * p;
      } else {
        assert Count(s) == k && w == 0;
      }
    }
  }

  lemma MulLe(a: nat, b: nat, c: nat)
    requires a <= b
    ensures a * c <= b * c
  {
  }

  /** Positional: appending a character multiplies the value so far by 16 and adds its digit. */
  lemma {:induction false} AppendRecognised(s: string, d: char)
    requires Recognised(d)
    ensures HexValue(s + [d]) == 16 * HexValue(s) + DigitValue(d)
  {
    if s == [] {
      assert [d][1..] == [];
    } else {
      var t := s[1..];
      assert (s + [d])[0] == s[0];
      assert (s + [d])[1..] == t + [d];
      AppendRecognised(t, d);
      CountAppend(t, d);
      var w, p := Weight(s[0]), Pow16(Count(t));
      assert Pow16(Count(t + [d])) == 16 * p;
      assert HexValue(s + [d]) == w * (16 * p) + HexValue(t + [d]);
      Regroup(w, p, HexValue(t), DigitValue(d));
    }
  }

  lemma Regroup(w: int, p: int, h: int, v: int)
    ensures w * (16 * p) + (16 * h + v) == 16 * (w * p + h) + v
  {
  }

  /** A skipped character leaves the value unchanged, wherever it stands. */
  lemma {:induction false} AppendSkipped(s: string, c: char)
    requires !Recognised(c)
    ensures HexValue(s + [c]) == HexValue(s)
  {
    if s == [] {
      assert [c][1..] == [];
    } else {
      var t := s[1..];
      assert (s + [c])[1..] == t + [c];
      AppendSkipped(t, c);
      CountAppend(t, c);
    }
  }

  /** The recognised characters of `s`, in order. */
  function Filtered(s: string): (r: string)
    ensures forall i :: 0 <= i < |r| ==> Recognised(r[i])
  {
    if s == [] then []
    else (if Recognised(s[0]) then [s[0]] else []) + Filtered(s[1..])
  }

  lemma {:induction false} CountFiltered(s: string)
    ensures Count(Filtered(s)) == Count(s)
  {
    if s != [] {
      CountFiltered(s[1..]);
      var r := Filtered(s);
      if Recognised(s[0]) {
        assert r[0] == s[0] && r[1..] == Filtered(s[1..]);
      } else {
        assert r == Filtered(s[1..]);
      }
    }
  }

  /** Removing every unrecognised character does not change the decoded value. */
  lemma {:induction false} FilterPreservesValue(s: string)
    ensures HexValue(Filtered(s)) == HexValue(s)
  {
    if s != [] {
      FilterPreservesValue(s[1..]);
      CountFiltered(s[1..]);
      var r := Filtered(s);
      if Recognised(s[0]) {
        assert r[0] == s[0] && r[1..] == Filtered(s[1..]);
      } else {
        assert r == Filtered(s[1..]);
      }
    }
  }

  // ---------------------------------------------------------------------------
  // The standard base-16 reading, as an independent reference

  const HexDigits: string := "0123456789ABCDEF"

  /** A digit of the documented alphabet: '0'-'9' and upper-case 'A'-'F'. */
  predicate IsHexDigit(c: char) {
    c in HexDigits
  }

  predicate IsHexString(s: string) {
    forall i :: 0 <= i < |s| ==> IsHexDigit(s[i])
  }

  /** The position of `c` in `s`. */
  function IndexOf(s: string, c: char): (i: nat)
    requires c in s
    ensures i < |s| && s[i] == c
  {
    if s[0] == c then 0 else 1 + IndexOf(s[1..], c)
  }

  /** The textbook value of a hex string, most significant digit first (Horner's rule). */
  function StandardHex(s: string): nat
    requires IsHexString(s)
  {
    if s == [] then 0
    else 16 * StandardHex(s[..|s| - 1]) + IndexOf(HexDigits, s[|s| - 1])
  }

  lemma HexDigitAgrees(c: char)
    requires IsHexDigit(c)
    ensures Recognised(c) && DigitValue(c) == IndexOf(HexDigits, c)
  {
    var i := IndexOf(HexDigits, c);
    assert HexDigits[i] == c;
    if i < 10 {
      assert IsDigit(c) && c as int - '0' as int == i by {
        assert i == 0 || i == 1 || i == 2 || i == 3 || i == 4 || i == 5 || i == 6 || i == 7 || i == 8 || i == 9;
      }
    } else {
      assert IsUpper(c) && c as int - 'A' as int + 10 == i by {
        assert i == 10 || i == 11 || i == 12 || i == 13 || i == 14 || i == 15;
      }
    }
  }

  /** On the documented alphabet the decoder agrees with the textbook reading. */
  lemma {:induction false} HexStringIsStandard(s: string)
    requires IsHexString(s)
    ensures HexValue(s) == StandardHex(s)
    ensures Count(s) == |s|
  {
    if s != [] {
      var p, d := s[..|s| - 1], s[|s| - 1];
      assert s == p + [d];
      HexStringIsStandard(p);
      HexDigitAgrees(d);
      AppendRecognised(p, d);
      CountAppend(p, d);
    }
  }

  /** On the documented alphabet the value is below 16^|s|. */
  lemma HexStringBelow(s: string)
    requires IsHexString(s)
    ensures HexValue(s) < Pow16(|s|)
  {
    HexStringIsStandard(s);
    StandardHexBelow(s);
  }

  lemma {:induction false} StandardHexBelow(s: string)
    requires IsHexString(s)
    ensures StandardHex(s) < Pow16(|s|)
  {
    if s != [] {
      StandardHexBelow(s[..|s| - 1]);
    }
  }

  /** Six hex digits or fewer always decode to a 24-bit colour. */
  lemma ShortHexIsRgb(s: string)
    requires IsHexString(s) && |s| <= 6
    ensures HexValue(s) <= MaxRgb
  {
    HexStringBelow(s);
    Pow16Monotone(|s|, 6);
    Pow16Values();
  }

  /** Worked value: the hex code of pure red. */
  lemma RedExample()
    ensures HexValue("FF0000") == 16711680
  {
    var f := "F";
    assert HexValue(f) == 15 by { assert f[1..] == []; }
    AppendRecognised(f, 'F');
    var ff := f + ['F'];
    AppendRecognised(ff, '0');
    var ff0 := ff + ['0'];
    AppendRecognised(ff0, '0');
    var ff00 := ff0 + ['0'];
    AppendRecognised(ff00, '0');
    var ff000 := ff00 + ['0'];
    AppendRecognised(ff000, '0');
    assert ff000 + ['0'] == "FF0000";
  }

  /** Worked value: the hex code of pure green (leading zeros weigh nothing). */
  lemma GreenExample()
    ensures HexValue("00FF00") == 65280
  {
    var z := "0";
    assert HexValue(z) == 0 by { assert z[1..] == []; }
    AppendRecognised(z, '0');
    var zz := z + ['0'];
    AppendRecognised(zz, 'F');
    var zzf := zz + ['F'];
    AppendRecognised(zzf, 'F');
    var zzff := zzf + ['F'];
    AppendRecognised(zzff, '0');
    var zzff0 := zzff + ['0'];
    AppendRecognised(zzff0, '0');
    assert zzff0 + ['0'] == "00FF00";
  }

  /**
   * The empty string decodes to 0; letters past 'F' count ('G' is 16); lower case
   * and punctuation are skipped.
   */
  lemma QuirkExamples()
    ensures HexValue("") == 0
    ensures HexValue("G") == 16
    ensures HexValue("ff") == 0
    ensures HexValue("#F-F") == 255
  {
    var g := "G";
    assert g[1..] == [];
    var f := "f";
    assert Count(f) == 0 by { assert f[1..] == []; }
    AppendSkipped(f, 'f');
    assert f + ['f'] == "ff";
    var h := "#";
    assert Count(h) == 0 by { assert h[1..] == []; }
    AppendRecognised(h, 'F');
    var hf := h + ['F'];
    AppendSkipped(hf, '-');
    var hfm := hf + ['-'];
    AppendRecognised(hfm, 'F');
    assert hfm + ['F'] == "#F-F";
  }
}
