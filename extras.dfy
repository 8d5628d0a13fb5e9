/**
 * The helpers of the extras module that the codec's users call directly:
 * the colour conversions `hex_to_rgb`, `rgb_to_hex` and `blend_colors`,
 * and the `Note` record built by `Note.__init__`.
 */
module Extras {
  import opened Wrappers

  /** The Python exceptions these helpers can raise. */
  datatype PyError = ValueError | IndexError

  // ---------------------------------------------------------------------
  // int(s, 16) on the two-character slices `hex_to_rgb` passes it

  /**
   * The characters `int()` strips from both ends of its argument: the ASCII
   * space, tab, line feed, vertical tab, form feed and carriage return, and
   * the non-ASCII white space of Unicode 15.0 (the database of Python 3.12).
   * The ASCII separators 0x1C-0x1F, which `str.isspace` accepts, are not
   * stripped.
   */
  predicate IsSpace(c: char)
  {
    var k := c as int;
    || k == 0x20 || 0x09 <= k <= 0x0D || k == 0x85 || k == 0xA0 || k == 0x1680
    || 0x2000 <= k <= 0x200A || k == 0x2028 || k == 0x2029 || k == 0x202F || k == 0x205F || k == 0x3000
  }

  /** The number of runs of decimal digits of Unicode 15.0 outside ASCII. */
  const DecimalRuns: nat := 67

  /**
   * The code point of the digit zero of run i, in increasing order. These
   * are the runs of decimal digits (general category Nd) of Unicode 15.0
   * outside ASCII; each run holds the digits zero to nine at consecutive
   * code points, and no other character is a decimal digit.
   */
  function DecimalZero(i: nat): int
    requires i < DecimalRuns
  {
    if i == 0 then 0x660
    else if i == 1 then 0x6F0
    else if i == 2 then 0x7C0
    else if i == 3 then 0x966
    else if i == 4 then 0x9E6
    else if i == 5 then 0xA66
    else if i == 6 then 0xAE6
    else if i == 7 then 0xB66
    else if i == 8 then 0xBE6
    else if i == 9 then 0xC66
    else if i == 10 then 0xCE6
    else if i == 11 then 0xD66
    else if i == 12 then 0xDE6
    else if i == 13 then 0xE50
    else if i == 14 then 0xED0
    else if i == 15 then 0xF20
    else if i == 16 then 0x1040
    else if i == 17 then 0x1090
    else if i == 18 then 0x17E0
    else if i == 19 then 0x1810
    else if i == 20 then 0x1946
    else if i == 21 then 0x19D0
    else if i == 22 then 0x1A80
    else if i == 23 then 0x1A90
    else if i == 24 then 0x1B50
    else if i == 25 then 0x1BB0
    else if i == 26 then 0x1C40
    else if i == 27 then 0x1C50
    else if i == 28 then 0xA620
    else if i == 29 then 0xA8D0
    else if i == 30 then 0xA900
    else if i == 31 then 0xA9D0
    else if i == 32 then 0xA9F0
    else if i == 33 then 0xAA50
    else if i == 34 then 0xABF0
    else if i == 35 then 0xFF10
    else if i == 36 then 0x104A0
    else if i == 37 then 0x10D30
    else if i == 38 then 0x11066
    else if i == 39 then 0x110F0
    else if i == 40 then 0x11136
    else if i == 41 then 0x111D0
    else if i == 42 then 0x112F0
    else if i == 43 then 0x11450
    else if i == 44 then 0x114D0
    else if i == 45 then 0x11650
    else if i == 46 then 0x116C0
    else if i == 47 then 0x11730
    else if i == 48 then 0x118E0
    else if i == 49 then 0x11950
    else if i == 50 then 0x11C50
    else if i == 51 then 0x11D50
    else if i == 52 then 0x11DA0
    else if i == 53 then 0x11F50
    else if i == 54 then 0x16A60
    else if i == 55 then 0x16AC0
    else if i == 56 then 0x16B50
    else if i == 57 then 0x1D7CE
    else if i == 58 then 0x1D7D8
    else if i == 59 then 0x1D7E2
    else if i == 60 then 0x1D7EC
    else if i == 61 then 0x1D7F6
    else if i == 62 then 0x1E140
    else if i == 63 then 0x1E2F0
    else if i == 64 then 0x1E4F0
    else if i == 65 then 0x1E950
    else 0x1FBF0
  }

  /** The decimal value of code point k when it lies in run i or a later one. */
  function DecimalFrom(k: int, i: nat): (r: Option<nat>)
    requires i <= DecimalRuns
    ensures r.Some? ==> r.value < 10
    decreases DecimalRuns - i
  {
    if i == DecimalRuns then None
    else if DecimalZero(i) <= k < DecimalZero(i) + 10 then Some(k - DecimalZero(i))
    else DecimalFrom(k, i + 1)
  }

  /**
   * The value of one base-16 digit as `int(s, 16)` reads it: an ASCII digit
   * or letter in either case, or a decimal digit of any other script.
   */
  function HexValue(c: char): (r: Option<nat>)
    ensures r.Some? ==> r.value < 16
    ensures IsLowerHex(c) ==> r.Some?
  {
    if '0' <= c <= '9' then Some(c as int - '0' as int)
    else if 'a' <= c <= 'f' then Some(c as int - 'a' as int + 10)
    else if 'A' <= c <= 'F' then Some(c as int - 'A' as int + 10)
    else if c as int < 128 then None
    else DecimalFrom(c as int, 0)
  }

  /** `s` without its leading white space: a suffix of `s` after only white space. */
  function StripLeft(s: string): (r: string)
    ensures |r| <= |s|
  {
    if s != [] && IsSpace(s[0]) then StripLeft(s[1..]) else s
  }

  /** `s` without its trailing white space: a prefix of `s` before only white space. */
  function StripRight(s: string): (r: string)
    ensures |r| <= |s|
  {
    if s != [] && IsSpace(s[|s| - 1]) then StripRight(s[..|s| - 1]) else s
  }

  /** `StripLeft` drops exactly the leading white space and keeps the rest of `s`. */
  lemma {:induction false} StripLeftSuffix(s: string)
    ensures var r := StripLeft(s);
      && r == s[|s| - |r|..] && (r == [] || !IsSpace(r[0]))
      && forall k :: 0 <= k < |s| - |r| ==> IsSpace(s[k])
  {
    if s != [] && IsSpace(s[0]) {
      StripLeftSuffix(s[1..]);
      var r := StripLeft(s);
      assert s[1..][|s| - 1 - |r|..] == s[|s| - |r|..];
      forall k | 1 <= k < |s| - |r|
        ensures IsSpace(s[k])
      {
        assert s[1..][k - 1] == s[k];
      }
    }
  }

  /** `StripRight` drops exactly the trailing white space and keeps the rest of `s`. */
  lemma {:induction false} StripRightPrefix(s: string)
    ensures var r := StripRight(s);
      && r == s[..|r|] && (r == [] || !IsSpace(r[|r| - 1]))
      && forall k :: |r| <= k < |s| ==> IsSpace(s[k])
  {
    if s != [] && IsSpace(s[|s| - 1]) {
      var t := s[..|s| - 1];
      StripRightPrefix(t);
      var r := StripRight(s);
      assert t[..|r|] == s[..|r|];
      forall k | |r| <= k < |s| - 1
        ensures IsSpace(s[k])
      {
        assert t[k] == s[k];
      }
    }
  }

  /**
   * `int(s, 16)` for a string of at most two characters: surrounding
   * white space is ignored, and what is left must be one or two digits
   * or a sign and one digit. (Underscores and a `0x` prefix need at least
   * three characters, so they cannot occur here.)
   */
  function ParseHex(s: string): (r: Option<int>)
    requires |s| <= 2
    ensures r.Some? ==> -15 <= r.value <= 255
  {
    var t := StripRight(StripLeft(s));
    if |t| == 1 && HexValue(t[0]).Some? then Some(HexValue(t[0]).value)
    else if |t| == 2 && (t[0] == '+' || t[0] == '-') && HexValue(t[1]).Some? then
      var d: int := HexValue(t[1]).value;
      Some(if t[0] == '-' then -d else d)
    else if |t| == 2 && HexValue(t[0]).Some? && HexValue(t[1]).Some? then
      Some(Pair(t[0], t[1]))
    else None
  }

  /** The value of two base-16 digits, high digit first. */
  function Pair(hi: char, lo: char): (r: nat)
    requires HexValue(hi).Some? && HexValue(lo).Some?
    ensures r < 256
  {
    16 * HexValue(hi).value + HexValue(lo).value
  }

  /** Python's slice `s[i:j]`, which clips both ends to the string. */
  function Slice(s: string, i: nat, j: nat): (r: string)
    requires i <= j
    ensures |r| <= j - i
  {
    var a := if i <= |s| then i else |s|;
    var b := if j <= |s| then j else |s|;
    s[a..b]
  }

  /** `s.lstrip('#')`: every leading '#' removed. */
  function LStripHash(s: string): (r: string)
    ensures r == [] || r[0] != '#'
  {
    if s != [] && s[0] == '#' then LStripHash(s[1..]) else s
  }

  /** A run of n '#' characters. */
  function Hashes(n: nat): (r: string)
  {
    if n == 0 then [] else "#" + Hashes(n - 1)
  }

  lemma {:induction false} LStripHashes(n: nat, h: string)
    requires h == [] || h[0] != '#'
    ensures LStripHash(Hashes(n) + h) == h
  {
    if n > 0 {
      assert (Hashes(n) + h)[1..] == Hashes(n - 1) + h;
      LStripHashes(n - 1, h);
    }
  }

  /**
   * `hex_to_rgb`: the three components parsed from characters [0:2], [2:4]
   * and [4:6] of the string without its leading '#'s; a slice that is not
   * a base-16 number raises `ValueError`.
   */
  function HexToRgb(s: string): (r: Result<seq<int>, PyError>)
    ensures r.Success? ==> |r.value| == 3 && forall k :: 0 <= k < 3 ==> -15 <= r.value[k] <= 255
    ensures r.Failure? ==> r.error == ValueError
  {
    var h := LStripHash(s);
    var red := ParseHex(Slice(h, 0, 2));
    var green := ParseHex(Slice(h, 2, 4));
    var blue := ParseHex(Slice(h, 4, 6));
    if red.None? || green.None? || blue.None? then Failure(ValueError)
    else Success([red.value, green.value, blue.value])
  }

  /** `int('\xa0f', 16)`: a no-break space is stripped like an ASCII one. */
  lemma NoBreakSpaceStripped()
    ensures ParseHex("\U{00A0}f") == Some(15)
  {
    assert StripLeft("\U{00A0}f") == "f";
    assert StripRight("f") == "f";
  }

  /** `int('\u0661\u0662', 16)`: Arabic-Indic digits read as 1 and 2. */
  lemma ArabicIndicDigits()
    ensures ParseHex("\U{0661}\U{0662}") == Some(18)
  {
    assert HexValue('\U{0661}') == Some(1) && HexValue('\U{0662}') == Some(2);
    assert StripLeft("\U{0661}\U{0662}") == "\U{0661}\U{0662}";
    assert StripRight("\U{0661}\U{0662}") == "\U{0661}\U{0662}";
  }

  /** `int('\x1cf', 16)` fails: the separator 0x1C is neither stripped nor a digit. */
  lemma SeparatorNotStripped()
    ensures ParseHex("\U{001C}f") == None
  {
    assert StripLeft("\U{001C}f") == "\U{001C}f";
    assert StripRight("\U{001C}f") == "\U{001C}f";
    assert HexValue('\U{001C}') == None;
  }

  /** `hex_to_rgb('#\xa0f0000')` is `(15, 0, 0)`. */
  lemma NoBreakSpaceColor(s: string)
    requires s == "#\U{00A0}f0000"
    ensures HexToRgb(s) == Success([15, 0, 0])
  {
    var h := s[1..];
    assert LStripHash(s) == h;
    assert Slice(h, 0, 2) == "\U{00A0}f" && Slice(h, 2, 4) == "00" && Slice(h, 4, 6) == "00";
    NoBreakSpaceStripped();
    PairParses("00");
    ColorOfPairs(s, h, 15, 0, 0);
  }

  /** `hex_to_rgb('\u0661\u06620000')` is `(18, 0, 0)`. */
  lemma ArabicIndicColor(s: string)
    requires s == "\U{0661}\U{0662}0000"
    ensures HexToRgb(s) == Success([18, 0, 0])
  {
    assert LStripHash(s) == s;
    assert Slice(s, 0, 2) == "\U{0661}\U{0662}" && Slice(s, 2, 4) == "00" && Slice(s, 4, 6) == "00";
    ArabicIndicDigits();
    PairParses("00");
    ColorOfPairs(s, s, 18, 0, 0);
  }

  /** HexToRgb reads the three pairs of what is left after the leading '#'. */
  lemma ColorOfPairs(s: string, h: string, r: int, g: int, b: int)
    requires LStripHash(s) == h
    requires ParseHex(Slice(h, 0, 2)) == Some(r) && ParseHex(Slice(h, 2, 4)) == Some(g)
    requires ParseHex(Slice(h, 4, 6)) == Some(b)
    ensures HexToRgb(s) == Success([r, g, b])
  {
  }

  // ---------------------------------------------------------------------
  // '{:02x}' formatting

  /** The lowercase base-16 digit for d. */
  function HexDigit(d: nat): (c: char)
    requires d < 16
    ensures HexValue(c) == Some(d) && IsLowerHex(c)
  {
    if d < 10 then ('0' as int + d) as char else ('a' as int + d - 10) as char
  }

  predicate IsLowerHex(c: char)
  {
    '0' <= c <= '9' || 'a' <= c <= 'f'
  }

  /** The lowercase base-16 digits of n, without leading zeros. */
  function HexDigits(n: nat): (r: string)
    ensures |r| >= 1
    ensures n < 16 <==> |r| == 1
  {
    if n < 16 then [HexDigit(n)] else HexDigits(n / 16) + [HexDigit(n % 16)]
  }

  /**
   * `'{:02x}'.format(n)`: base 16 in lowercase, zero-padded to two
   * characters; a negative number keeps its '-' inside that width.
   */
  function Format02x(n: int): string
  {
    if n < 0 then "-" + HexDigits(-n)
    else if n < 16 then "0" + HexDigits(n)
    else HexDigits(n)
  }

  /**
   * `rgb_to_hex`: '#' followed by the first three components formatted
   * with '{:02x}'; a tuple with fewer than three raises `IndexError`.
   */
  function RgbToHex(rgb: seq<int>): (r: Result<string, PyError>)
    ensures r.Success? <==> |rgb| >= 3
    ensures r.Success? ==> |r.value| >= 7 && r.value[0] == '#'
    ensures r.Failure? ==> r.error == IndexError
  {
    if |rgb| < 3 then Failure(IndexError)
    else Success("#" + Format02x(rgb[0]) + Format02x(rgb[1]) + Format02x(rgb[2]))
  }

  // ---------------------------------------------------------------------
  // blend_colors

  /** The list comprehension `[hex_to_rgb(c) for c in colors]`. */
  function ParseAll(colors: seq<string>): (r: Result<seq<seq<int>>, PyError>)
    ensures r.Success? ==> |r.value| == |colors|
    ensures r.Success? <==> forall i :: 0 <= i < |colors| ==> HexToRgb(colors[i]).Success?
    ensures r.Success? ==> forall i :: 0 <= i < |colors| ==> r.value[i] == HexToRgb(colors[i]).value
  {
    if colors == [] then Success([])
    else
      var first := HexToRgb(colors[0]);
      if first.Failure? then Failure(first.error)
      else
        var rest := ParseAll(colors[1..]);
        if rest.Failure? then Failure(rest.error)
        else Success([first.value] + rest.value)
  }

  /** Every entry is a triple. */
  predicate Triples(rgbs: seq<seq<int>>)
  {
    forall i :: 0 <= i < |rgbs| ==> |rgbs[i]| == 3
  }

  /** `sum` of component k over all triples. */
  function ColumnSum(rgbs: seq<seq<int>>, k: nat): int
    requires k < 3 && Triples(rgbs)
  {
    if rgbs == [] then 0 else ColumnSum(rgbs[..|rgbs| - 1], k) + rgbs[|rgbs| - 1][k]
  }

  /**
   * `blend_colors`: each component is the sum over all colours floor-divided
   * by their number (Python's `//`, which Dafny's `/` matches for a positive
   * divisor). With no colours `zip` yields nothing and the format call
   * raises `IndexError`; a colour `hex_to_rgb` rejects raises `ValueError`.
   */
  function BlendColors(colors: seq<string>): (r: Result<string, PyError>)
    ensures colors == [] ==> r == Failure(IndexError)
    ensures r.Success? <==> colors != [] && forall i :: 0 <= i < |colors| ==> HexToRgb(colors[i]).Success?
  {
    var parsed := ParseAll(colors);
    if parsed.Failure? then Failure(parsed.error)
    else
      RgbToHex(Means(parsed.value))
  }

  /** `[sum(x) // len(x) for x in zip(*rgbs)]`: one mean per component, none without triples. */
  function Means(rgbs: seq<seq<int>>): (r: seq<int>)
    requires Triples(rgbs)
    ensures |r| == if rgbs == [] then 0 else 3
  {
    var n := |rgbs|;
    if n == 0 then [] else [ColumnSum(rgbs, 0) / n, ColumnSum(rgbs, 1) / n, ColumnSum(rgbs, 2) / n]
  }

  // ---------------------------------------------------------------------
  // Properties of the colour helpers

  /** Components in 0..255. */
  predicate InRange(rgb: seq<int>)
  {
    |rgb| == 3 && 0 <= rgb[0] <= 255 && 0 <= rgb[1] <= 255 && 0 <= rgb[2] <= 255
  }

  /** The canonical colour string: '#' and six lowercase base-16 digits. */
  predicate IsHexColor(s: string)
  {
    |s| == 7 && s[0] == '#' && forall i :: 1 <= i < 7 ==> IsLowerHex(s[i])
  }

  lemma Format02xDigits(n: int)
    requires 0 <= n <= 255
    ensures var f := Format02x(n);
      |f| == 2 && IsLowerHex(f[0]) && IsLowerHex(f[1])
      && HexValue(f[0]).Some? && HexValue(f[1]).Some? && Pair(f[0], f[1]) == n
  {
    if n >= 16 {
      assert HexDigits(n / 16) == [HexDigit(n / 16)];
      assert Format02x(n) == [HexDigit(n / 16), HexDigit(n % 16)];
    } else {
      assert Format02x(n) == ['0', HexDigit(n)];
    }
  }

  /** A string that is six lowercase base-16 digits after its leading '#'s parses digit pair by digit pair. */
  lemma {:induction false} HexToRgbOfDigits(n: nat, h: string)
    requires |h| >= 6 && forall i :: 0 <= i < 6 ==> IsLowerHex(h[i])
    ensures HexToRgb(Hashes(n) + h) == Success([Pair(h[0], h[1]), Pair(h[2], h[3]), Pair(h[4], h[5])])
  {
    assert h[0] != '#' by { assert IsLowerHex(h[0]); }
    LStripHashes(n, h);
    var s := Hashes(n) + h;
    assert LStripHash(s) == h;
    assert Slice(h, 0, 2) == h[0..2];
    assert Slice(h, 2, 4) == h[2..4];
    assert Slice(h, 4, 6) == h[4..6];
    assert IsLowerHex(h[0]) && IsLowerHex(h[1]) && IsLowerHex(h[2]);
    assert IsLowerHex(h[3]) && IsLowerHex(h[4]) && IsLowerHex(h[5]);
    PairParses(h[0..2]);
    PairParses(h[2..4]);
    PairParses(h[4..6]);
  }

  lemma PairParses(t: string)
    requires |t| == 2 && IsLowerHex(t[0]) && IsLowerHex(t[1])
    ensures ParseHex(t) == Some(Pair(t[0], t[1]))
  {
    assert !IsSpace(t[0]) && !IsSpace(t[1]);
    assert StripLeft(t) == t;
    assert StripRight(t) == t;
  }

  /** `rgb_to_hex` of an in-range triple is the canonical '#rrggbb' form, two digits per component. */
  lemma RgbToHexShape(rgb: seq<int>)
    requires InRange(rgb)
    ensures RgbToHex(rgb).Success?
    ensures var s := RgbToHex(rgb).value;
      IsHexColor(s) && Pair(s[1], s[2]) == rgb[0] && Pair(s[3], s[4]) == rgb[1] && Pair(s[5], s[6]) == rgb[2]
  {
    var f0, f1, f2 := Format02x(rgb[0]), Format02x(rgb[1]), Format02x(rgb[2]);
    Format02xDigits(rgb[0]);
    Format02xDigits(rgb[1]);
    Format02xDigits(rgb[2]);
    var s := RgbToHex(rgb).value;
    assert s == ['#', f0[0], f0[1], f1[0], f1[1], f2[0], f2[1]];
  }

  /** The six digits of a canonical colour string, after its '#'. */
  lemma ColorDigits(s: string)
    requires IsHexColor(s)
    ensures s == Hashes(1) + s[1..]
    ensures |s[1..]| >= 6 && forall i :: 0 <= i < 6 ==> IsLowerHex(s[1..][i])
  {
    assert Hashes(1) == "#";
    forall i | 0 <= i < 6
      ensures IsLowerHex(s[1..][i])
    {
      assert IsLowerHex(s[i + 1]);
    }
  }

  /** Round trip: `hex_to_rgb(rgb_to_hex(c)) == c` for components in 0..255. */
  lemma RgbRoundTrip(rgb: seq<int>)
    requires InRange(rgb)
    ensures RgbToHex(rgb).Success? && HexToRgb(RgbToHex(rgb).value) == Success(rgb)
  {
    RgbToHexShape(rgb);
    var s := RgbToHex(rgb).value;
    ColorDigits(s);
    HexToRgbOfDigits(1, s[1..]);
    assert s[1..][..6] == s[1..7];
    assert HexToRgb(s).value == [Pair(s[1], s[2]), Pair(s[3], s[4]), Pair(s[5], s[6])];
    assert rgb == [rgb[0], rgb[1], rgb[2]];
  }

  /** Two digit pairs with the same value are the same digits. */
  lemma PairUnique(a: char, b: char, c: char, d: char)
    requires IsLowerHex(a) && IsLowerHex(b) && IsLowerHex(c) && IsLowerHex(d)
    requires Pair(a, b) == Pair(c, d)
    ensures a == c && b == d
  {
  }

  /** Round trip the other way: a canonical colour string comes back unchanged. */
  lemma HexRoundTrip(s: string)
    requires IsHexColor(s)
    ensures HexToRgb(s).Success? && InRange(HexToRgb(s).value)
    ensures RgbToHex(HexToRgb(s).value) == Success(s)
  {
    ColorDigits(s);
    HexToRgbOfDigits(1, s[1..]);
    var rgb := HexToRgb(s).value;
    assert rgb == [Pair(s[1], s[2]), Pair(s[3], s[4]), Pair(s[5], s[6])];
    RgbToHexShape(rgb);
    var t := RgbToHex(rgb).value;
    assert IsLowerHex(s[1]) && IsLowerHex(s[2]) && IsLowerHex(s[3]);
    assert IsLowerHex(s[4]) && IsLowerHex(s[5]) && IsLowerHex(s[6]);
    assert IsLowerHex(t[1]) && IsLowerHex(t[2]) && IsLowerHex(t[3]);
    assert IsLowerHex(t[4]) && IsLowerHex(t[5]) && IsLowerHex(t[6]);
    PairUnique(t[1], t[2], s[1], s[2]);
    PairUnique(t[3], t[4], s[3], s[4]);
    PairUnique(t[5], t[6], s[5], s[6]);
    SameSeven(t, s);
  }

  lemma SameSeven(t: string, s: string)
    requires |t| == 7 == |s| && t[0] == s[0] && t[1] == s[1] && t[2] == s[2]
    requires t[3] == s[3] && t[4] == s[4] && t[5] == s[5] && t[6] == s[6]
    ensures t == s
  {
    assert forall i | 0 <= i < 7 :: t[i] == s[i];
  }

  /** A single colour blends to its own canonical form. */
  lemma BlendSingle(s: string)
    requires IsHexColor(s)
    ensures BlendColors([s]) == Success(s)
  {
    HexRoundTrip(s);
    var rgb := HexToRgb(s).value;
    var rgbs := ParseAll([s]).value;
    assert rgbs == [rgb];
    forall k | 0 <= k < 3
      ensures ColumnSum(rgbs, k) == rgb[k]
    {
      assert rgbs[..0] == [];
    }
  }

  lemma {:induction false} ColumnSumBounds(rgbs: seq<seq<int>>, k: nat)
    requires k < 3 && Triples(rgbs)
    requires forall i :: 0 <= i < |rgbs| ==> InRange(rgbs[i])
    ensures 0 <= ColumnSum(rgbs, k) <= 255 * |rgbs|
  {
    if rgbs != [] {
      assert InRange(rgbs[|rgbs| - 1]);
      ColumnSumBounds(rgbs[..|rgbs| - 1], k);
    }
  }

  /** m holds, per component, the floor of the mean of that component over rgbs. */
  predicate IsFloorMean(m: seq<int>, rgbs: seq<seq<int>>)
  {
    |m| == 3 && Triples(rgbs)
    && IsFloorOf(m[0], ColumnSum(rgbs, 0), |rgbs|)
    && IsFloorOf(m[1], ColumnSum(rgbs, 1), |rgbs|)
    && IsFloorOf(m[2], ColumnSum(rgbs, 2), |rgbs|)
  }

  /** c is the floor of sum / n. */
  predicate IsFloorOf(c: int, sum: int, n: nat)
  {
    c * n <= sum < (c + 1) * n
  }

  /** Colours that parse in range give as many in-range triples. */
  lemma ParsedInRange(colors: seq<string>)
    requires forall i :: 0 <= i < |colors| ==> HexToRgb(colors[i]).Success? && InRange(HexToRgb(colors[i]).value)
    ensures ParseAll(colors).Success?
    ensures var rgbs := ParseAll(colors).value;
      |rgbs| == |colors| && Triples(rgbs) && forall i :: 0 <= i < |rgbs| ==> InRange(rgbs[i])
  {
    var rgbs := ParseAll(colors).value;
    forall i | 0 <= i < |rgbs|
      ensures InRange(rgbs[i])
    {
      assert rgbs[i] == HexToRgb(colors[i]).value;
    }
  }

  /** The means of in-range triples are in range and are the floors of the true means. */
  lemma MeansAreFloorMeans(rgbs: seq<seq<int>>)
    requires rgbs != [] && Triples(rgbs) && forall i :: 0 <= i < |rgbs| ==> InRange(rgbs[i])
    ensures InRange(Means(rgbs)) && IsFloorMean(Means(rgbs), rgbs)
  {
    var n := |rgbs|;
    ColumnSumBounds(rgbs, 0);
    ColumnSumBounds(rgbs, 1);
    ColumnSumBounds(rgbs, 2);
    FloorMean(ColumnSum(rgbs, 0), n);
    FloorMean(ColumnSum(rgbs, 1), n);
    FloorMean(ColumnSum(rgbs, 2), n);
  }

  /**
   * Blending in-range colours gives a canonical colour whose components are
   * the floors of the means of the inputs' components.
   */
  lemma BlendIsFloorMean(colors: seq<string>)
    requires colors != []
    requires forall i :: 0 <= i < |colors| ==> HexToRgb(colors[i]).Success? && InRange(HexToRgb(colors[i]).value)
    ensures BlendColors(colors).Success? && IsHexColor(BlendColors(colors).value)
    ensures var m := HexToRgb(BlendColors(colors).value);
      m.Success? && IsFloorMean(m.value, ParseAll(colors).value)
  {
    ParsedInRange(colors);
    var rgbs := ParseAll(colors).value;
    var avg := Means(rgbs);
    MeansAreFloorMeans(rgbs);
    RgbRoundTrip(avg);
    RgbToHexShape(avg);
    assert BlendColors(colors) == RgbToHex(avg);
  }

  lemma FloorMean(sum: int, n: nat)
    requires n > 0 && 0 <= sum <= 255 * n
    ensures 0 <= sum / n <= 255
    ensures IsFloorOf(sum / n, sum, n)
  {
  }

  // ---------------------------------------------------------------------
  // Note.__init__

  /** A value of a `Note` attribute: `None` or a number (ints and floats alike). */
  datatype Scalar = PyNone | Num(value: real)

  /** A `Note` object's attributes after `__init__`. */
  datatype NoteObject = NoteObject(
    x: Scalar, y: Scalar, ms: Scalar,
    dx: Scalar, dy: Scalar, dt: Scalar, dh: Scalar,
    note: (Scalar, Scalar, Scalar),
    classifications: seq<string>)

  /**
   * `Note(x, y, ms, note, vector=..., classifications=...)`: a `note` tuple
   * overrides x, y and ms, a `vector` gives dx, dy, dt and dh (all 0
   * without one), and `note` is the triple of the resulting x, y, ms.
   * Unpacking a tuple of the wrong length raises `ValueError`.
   */
  function NewNote(x: Scalar, y: Scalar, ms: Scalar, note: Option<seq<Scalar>>,
                   vector: Option<seq<Scalar>>, classifications: seq<string>): (r: Result<NoteObject, PyError>)
    ensures r.Success? <==> (note.None? || |note.value| == 3) && (vector.None? || |vector.value| == 4)
    ensures r.Success? ==> r.value.note == (r.value.x, r.value.y, r.value.ms)
    ensures r.Success? ==> r.value.classifications == classifications
    ensures r.Failure? ==> r.error == ValueError
  {
    if note.Some? && |note.value| != 3 then Failure(ValueError)
    else if vector.Some? && |vector.value| != 4 then Failure(ValueError)
    else
      var pos := if note.Some? then (note.value[0], note.value[1], note.value[2]) else (x, y, ms);
      var vec := if vector.Some? then (vector.value[0], vector.value[1], vector.value[2], vector.value[3])
                 else (Num(0.0), Num(0.0), Num(0.0), Num(0.0));
      Success(NoteObject(pos.0, pos.1, pos.2, vec.0, vec.1, vec.2, vec.3, pos, classifications))
  }

  /** A `note` tuple wins: the separately passed x, y and ms make no difference. */
  lemma NoteTupleOverrides(x: Scalar, y: Scalar, ms: Scalar, x2: Scalar, y2: Scalar, ms2: Scalar,
                           t: seq<Scalar>, vector: Option<seq<Scalar>>, classifications: seq<string>)
    requires |t| == 3
    ensures NewNote(x, y, ms, Some(t), vector, classifications)
         == NewNote(x2, y2, ms2, Some(t), vector, classifications)
    ensures NewNote(x, y, ms, Some(t), vector, classifications).Success? ==>
      NewNote(x, y, ms, Some(t), vector, classifications).value.note == (t[0], t[1], t[2])
  {
  }

  /** Without a `vector`, every difference attribute is 0 and x, y, ms are the arguments. */
  lemma NoteWithoutVector(x: Scalar, y: Scalar, ms: Scalar, classifications: seq<string>)
    ensures var r := NewNote(x, y, ms, None, None, classifications);
      r.Success? && r.value.note == (x, y, ms)
      && r.value.dx == r.value.dy == r.value.dt == r.value.dh == Num(0.0)
  {
  }
}
