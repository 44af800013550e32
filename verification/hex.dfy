/**
 * Hex colour strings of the form `#rrggbb`: reading the three 8-bit
 * channels back out of one (JavaScript `parseInt(s.substr(i, 2), 16)`) and
 * writing an integer as `#` plus six lower-case, zero-padded hex digits
 * (`n.toString(16).padStart(6, '0')`).
 */
module Hex {

  predicate IsHexDigit(c: char) {
    '0' <= c <= '9' || 'a' <= c <= 'f' || 'A' <= c <= 'F'
  }

  predicate IsLowerHexDigit(c: char) {
    '0' <= c <= '9' || 'a' <= c <= 'f'
  }

  predicate AllHexDigits(s: string) {
    forall i :: 0 <= i < |s| ==> IsHexDigit(s[i])
  }

  predicate AllLowerHexDigits(s: string) {
    forall i :: 0 <= i < |s| ==> IsLowerHexDigit(s[i])
  }

  /** A colour as produced by an HTML colour picker: `#` and six hex digits. */
  predicate ValidHex(s: string) {
    |s| == 7 && s[0] == '#' &&
    IsHexDigit(s[1]) && IsHexDigit(s[2]) && IsHexDigit(s[3]) &&
    IsHexDigit(s[4]) && IsHexDigit(s[5]) && IsHexDigit(s[6])
  }

  /** A colour string whose six digits are all lower case. */
  predicate IsLowerHex(s: string) {
    ValidHex(s) &&
    IsLowerHexDigit(s[1]) && IsLowerHexDigit(s[2]) && IsLowerHexDigit(s[3]) &&
    IsLowerHexDigit(s[4]) && IsLowerHexDigit(s[5]) && IsLowerHexDigit(s[6])
  }

  /** The digit tests of `ValidHex` and `IsLowerHex`, as statements about all six digits. */
  lemma DigitsOf(s: string)
    requires |s| == 7 && s[0] == '#'
    ensures ValidHex(s) <==> AllHexDigits(s[1..])
    ensures IsLowerHex(s) <==> AllLowerHexDigits(s[1..])
  {
    if AllLowerHexDigits(s[1..]) {
      assert forall i :: 1 <= i < 7 ==> s[i] == s[1..][i - 1];
    }
    if AllHexDigits(s[1..]) {
      assert forall i :: 1 <= i < 7 ==> s[i] == s[1..][i - 1];
    }
  }

  /** The value of one hex digit; `parseInt` accepts either case. */
  function DigitValue(c: char): (v: nat)
    requires IsHexDigit(c)
    ensures v < 16
  {
    if '0' <= c <= '9' then c as int - '0' as int
    else if 'a' <= c <= 'f' then c as int - 'a' as int + 10
    else c as int - 'A' as int + 10
  }

  /** The lower-case digit `Number.prototype.toString(16)` writes for `v`. */
  function LowerDigit(v: nat): (c: char)
    requires v < 16
    ensures IsLowerHexDigit(c) && IsHexDigit(c)
    ensures DigitValue(c) == v
  {
    if v < 10 then ('0' as int + v) as char else ('a' as int + v - 10) as char
  }

  /** The number a string of hex digits denotes, most significant digit first. */
  function HexValue(s: string): nat
    requires AllHexDigits(s)
  {
    if s == [] then 0 else 16 * HexValue(s[..|s| - 1]) + DigitValue(s[|s| - 1])
  }

  function Pow16(k: nat): (p: nat)
    ensures p >= 1
  {
    if k == 0 then 1 else 16 * Pow16(k - 1)
  }

  /** The two hex digits at positions `i` and `i + 1`, read as one byte. */
  function Byte(s: string, i: nat): (v: nat)
    requires ValidHex(s) && 1 <= i <= 5
    ensures v < 256
  {
    16 * DigitValue(s[i]) + DigitValue(s[i + 1])
  }

  /** Two hex digits are worth sixteen times the first plus the second. */
  lemma TwoDigitValue(d: string)
    requires |d| == 2 && AllHexDigits(d)
    ensures HexValue(d) == 16 * DigitValue(d[0]) + DigitValue(d[1])
  {
    assert d[..0] == [];
    PrefixValue(d, 1);
    PrefixValue(d, 2);
    assert d[..2] == d;
  }

  /** `parseInt(s.substr(i, 2), 16)` for the two digits at `i`: a byte, the value of that substring. */
  function Channel(s: string, i: nat): (v: nat)
    requires ValidHex(s) && i in {1, 3, 5}
    ensures v < 256
    ensures AllHexDigits(s[i..i + 2]) && HexValue(s[i..i + 2]) == v
  {
    var d := s[i..i + 2];
    assert d[0] == s[i] && d[1] == s[i + 1];
    TwoDigitValue(d);
    Byte(s, i)
  }

  /** The red channel, `parseInt(s.substr(1, 2), 16)`. */
  function Red(s: string): (r: nat)
    requires ValidHex(s)
    ensures r < 256 && AllHexDigits(s[1..3]) && HexValue(s[1..3]) == r
  {
    Channel(s, 1)
  }

  /** The green channel, `parseInt(s.substr(3, 2), 16)`. */
  function Green(s: string): (g: nat)
    requires ValidHex(s)
    ensures g < 256 && AllHexDigits(s[3..5]) && HexValue(s[3..5]) == g
  {
    Channel(s, 3)
  }

  /** The blue channel, `parseInt(s.substr(5, 2), 16)`. */
  function Blue(s: string): (b: nat)
    requires ValidHex(s)
    ensures b < 256 && AllHexDigits(s[5..7]) && HexValue(s[5..7]) == b
  {
    Channel(s, 5)
  }

  /** `n.toString(16)`: lower-case digits, no leading zeros. */
  function ToHexString(n: nat): (s: string)
    ensures 1 <= |s|
    ensures AllLowerHexDigits(s) && AllHexDigits(s)
    ensures HexValue(s) == n
    ensures n > 0 ==> s[0] != '0'
  {
    if n < 16 then [LowerDigit(n)]
    else
      var s := ToHexString(n / 16) + [LowerDigit(n % 16)];
      assert s[..|s| - 1] == ToHexString(n / 16);
      s
  }

  /** `s.padStart(target, fill)` for a one-character fill. */
  function PadStart(s: string, target: nat, fill: char): (r: string)
    ensures |r| == if |s| >= target then |s| else target
    ensures r[|r| - |s|..] == s
    ensures forall i :: 0 <= i < |r| - |s| ==> r[i] == fill
  {
    if |s| >= target then s else seq(target - |s|, _ => fill) + s
  }

  lemma {:induction false} HexLength(n: nat, k: nat)
    requires 1 <= k && n < Pow16(k)
    ensures |ToHexString(n)| <= k
  {
    if n >= 16 {
      assert k >= 2;
      HexLength(n / 16, k - 1);
    }
  }

  lemma {:induction false} LeadingZerosAddNothing(z: nat, s: string)
    requires AllHexDigits(s)
    ensures AllHexDigits(seq(z, _ => '0') + s)
    ensures HexValue(seq(z, _ => '0') + s) == HexValue(s)
    decreases |s|, z
  {
    var t := seq(z, _ => '0') + s;
    if s == [] {
      if z > 0 {
        assert t[..|t| - 1] == seq(z - 1, _ => '0') + [];
        LeadingZerosAddNothing(z - 1, []);
      }
    } else {
      assert t[..|t| - 1] == seq(z, _ => '0') + s[..|s| - 1];
      LeadingZerosAddNothing(z, s[..|s| - 1]);
    }
  }

  lemma PrefixValue(s: string, k: nat)
    requires AllHexDigits(s) && 1 <= k <= |s|
    ensures HexValue(s[..k]) == 16 * HexValue(s[..k - 1]) + DigitValue(s[k - 1])
  {
    assert s[..k][..k - 1] == s[..k - 1];
  }

  /** The value of six hex digits, written out digit by digit. */
  lemma SixDigitValue(d: string)
    requires |d| == 6 && AllHexDigits(d)
    ensures HexValue(d) ==
      ((((DigitValue(d[0]) * 16 + DigitValue(d[1])) * 16 + DigitValue(d[2])) * 16
        + DigitValue(d[3])) * 16 + DigitValue(d[4])) * 16 + DigitValue(d[5])
  {
    assert d[..0] == [];
    PrefixValue(d, 1);
    PrefixValue(d, 2);
    PrefixValue(d, 3);
    PrefixValue(d, 4);
    PrefixValue(d, 5);
    PrefixValue(d, 6);
    assert d[..6] == d;
  }

  /** Six hex digits are worth the three bytes they spell, high byte first. */
  lemma SixDigitsAreThreeBytes(s: string)
    requires ValidHex(s)
    ensures AllHexDigits(s[1..])
    ensures HexValue(s[1..]) == Red(s) * 65536 + Green(s) * 256 + Blue(s)
  {
    DigitsOf(s);
    var d := s[1..];
    SixDigitValue(d);
    assert d[0] == s[1] && d[1] == s[2] && d[2] == s[3] && d[3] == s[4] && d[4] == s[5] && d[5] == s[6];
  }

  /** `n.toString(16).padStart(6, '0')` spells `n` in exactly six lower-case digits. */
  lemma PaddedDigits(n: nat)
    requires n < 0x100_0000
    ensures var p := PadStart(ToHexString(n), 6, '0');
      |p| == 6 && AllLowerHexDigits(p) && AllHexDigits(p) && HexValue(p) == n
  {
    var digits := ToHexString(n);
    HexLength(n, 6);
    LeadingZerosAddNothing(6 - |digits|, digits);
    var p := PadStart(digits, 6, '0');
    assert p == seq(6 - |digits|, _ => '0') + digits;
    ZerosThenLower(6 - |digits|, digits);
  }

  lemma ZerosThenLower(z: nat, s: string)
    requires AllLowerHexDigits(s)
    ensures AllLowerHexDigits(seq(z, _ => '0') + s)
  {
    var t := seq(z, _ => '0') + s;
    forall i | 0 <= i < |t| ensures IsLowerHexDigit(t[i]) {
      if i >= z {
        assert t[i] == s[i - z];
      }
    }
  }

  /** The colour string for `n`: `'#' + n.toString(16).padStart(6, '0')`. */
  function FormatColor(n: nat): (s: string)
    requires n < 0x100_0000
    ensures IsLowerHex(s)
  {
    var p := PadStart(ToHexString(n), 6, '0');
    PaddedDigits(n);
    assert ("#" + p)[1..] == p;
    DigitsOf("#" + p);
    "#" + p
  }

  /** The digits of a formatted colour are worth the number formatted. */
  lemma FormatColorValue(n: nat)
    requires n < 0x100_0000
    ensures AllHexDigits(FormatColor(n)[1..])
    ensures HexValue(FormatColor(n)[1..]) == n
  {
    PaddedDigits(n);
    var p := PadStart(ToHexString(n), 6, '0');
    assert FormatColor(n)[1..] == p;
  }

  /** Reading the channels of a formatted colour gives back the bytes of `n`. */
  lemma FormatColorChannels(n: nat)
    requires n < 0x100_0000
    ensures Red(FormatColor(n)) == n / 65536
    ensures Green(FormatColor(n)) == n / 256 % 256
    ensures Blue(FormatColor(n)) == n % 256
  {
    var s := FormatColor(n);
    FormatColorValue(n);
    SixDigitsAreThreeBytes(s);
    BytesOfValue(n, Red(s), Green(s), Blue(s));
  }

  lemma BytesOfValue(n: nat, r: nat, g: nat, b: nat)
    requires r < 256 && g < 256 && b < 256
    requires n == r * 65536 + g * 256 + b
    ensures n / 65536 == r && n / 256 % 256 == g && n % 256 == b
  {
    assert n == (r * 256 + g) * 256 + b;
    assert n / 256 == r * 256 + g;
    assert n == r * 65536 + (g * 256 + b);
  }

  /** Every value below 0xffffff is written as something other than `#ffffff`. */
  lemma FormatColorBelowWhite(n: nat)
    requires n < 0xff_ffff
    ensures FormatColor(n) != "#ffffff"
  {
    var w := "#ffffff";
    assert ValidHex(w);
    SixDigitsAreThreeBytes(w);
    assert Red(w) == 255 && Green(w) == 255 && Blue(w) == 255;
    FormatColorValue(n);
  }

  lemma LowerDigitsDetermined(a: string, b: string)
    requires |a| == |b| && AllLowerHexDigits(a) && AllLowerHexDigits(b)
    requires AllHexDigits(a) && AllHexDigits(b) && HexValue(a) == HexValue(b)
    ensures a == b
    decreases |a|
  {
    if a != [] {
      var n := |a|;
      assert DigitValue(a[n - 1]) == DigitValue(b[n - 1]);
      assert HexValue(a[..n - 1]) == HexValue(b[..n - 1]);
      LowerDigitsDetermined(a[..n - 1], b[..n - 1]);
      assert a == a[..n - 1] + [a[n - 1]] && b == b[..n - 1] + [b[n - 1]];
    }
  }

  /** Every lower-case colour string is the formatting of the value of its digits. */
  lemma FormatColorOnto(s: string)
    requires IsLowerHex(s)
    ensures AllHexDigits(s[1..])
    ensures HexValue(s[1..]) < 0x100_0000
    ensures FormatColor(HexValue(s[1..])) == s
  {
    SixDigitsAreThreeBytes(s);
    var n := HexValue(s[1..]);
    var t := FormatColor(n);
    FormatColorValue(n);
    DigitsOf(s);
    DigitsOf(t);
    LowerDigitsDetermined(t[1..], s[1..]);
    assert t == [t[0]] + t[1..] && s == [s[0]] + s[1..];
  }

  lemma WhiteValue()
    ensures IsLowerHex("#ffffff")
    ensures AllHexDigits("#ffffff"[1..])
    ensures HexValue("#ffffff"[1..]) == 0xff_ffff
  {
    var w := "#ffffff";
    assert IsLowerHex(w);
    SixDigitsAreThreeBytes(w);
  }

  /** Every lower-case colour string other than `#ffffff` is written for some value below 0xffffff. */
  lemma FormatColorReaches(s: string)
    requires IsLowerHex(s) && s != "#ffffff"
    ensures exists n: nat :: n < 0xff_ffff && FormatColor(n) == s
  {
    FormatColorOnto(s);
    var n := HexValue(s[1..]);
    assert n != 0xff_ffff by {
      WhiteValue();
      FormatColorOnto("#ffffff");
      assert FormatColor(0xff_ffff) == "#ffffff";
    }
    assert n < 0xff_ffff && FormatColor(n) == s;
  }

  /**
   * The values below 0xffffff are written as exactly the lower-case colour
   * strings other than `#ffffff`.
   */
  lemma FormatColorRange(s: string)
    ensures (exists n: nat :: n < 0xff_ffff && FormatColor(n) == s) <==>
      IsLowerHex(s) && s != "#ffffff"
  {
    if exists n: nat :: n < 0xff_ffff && FormatColor(n) == s {
      var n: nat :| n < 0xff_ffff && FormatColor(n) == s;
      FormatColorBelowWhite(n);
    }
    if IsLowerHex(s) && s != "#ffffff" {
      FormatColorReaches(s);
    }
  }
}
