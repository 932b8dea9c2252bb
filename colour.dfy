/** The `colorWithAlpha` helper of `createNebulaGlowTexture`
  * (js/solarSystem.js): CSS colour text to `rgba(...)` text with a new alpha,
  * together with the pieces of JavaScript it relies on (`parseInt(…, 16)`,
  * number-to-text, `String.prototype.replace`). */
module Colour {
  import opened Common

  // ------------------------------------------------------- parseInt(s, 16)

  /** The characters `parseInt` skips before the number: the ECMAScript
    * WhiteSpace and LineTerminator code points. */
  predicate IsJsSpace(c: char)
  {
    c == '\t' || c == '\n' || c == '\U{000B}' || c == '\U{000C}' || c == '\r' || c == ' ' ||
    c == '\U{00A0}' || c == '\U{1680}' || ('\U{2000}' <= c <= '\U{200A}') ||
    c == '\U{2028}' || c == '\U{2029}' || c == '\U{202F}' || c == '\U{205F}' ||
    c == '\U{3000}' || c == '\U{FEFF}'
  }

  predicate IsHexDigit(c: char)
  {
    ('0' <= c <= '9') || ('a' <= c <= 'f') || ('A' <= c <= 'F')
  }

  function HexDigitValue(c: char): (v: nat)
    requires IsHexDigit(c)
    ensures v < 16
  {
    if '0' <= c <= '9' then c as int - '0' as int
    else if 'a' <= c <= 'f' then c as int - 'a' as int + 10
    else c as int - 'A' as int + 10
  }

  function TrimStart(s: string): (r: string)
    ensures |r| <= |s| && r == s[|s| - |r|..]
    ensures |r| > 0 ==> !IsJsSpace(r[0])
  {
    if |s| > 0 && IsJsSpace(s[0]) then TrimStart(s[1..]) else s
  }

  /** The length of the longest prefix of hexadecimal digits. */
  function HexPrefixLength(s: string): (n: nat)
    ensures n <= |s|
    ensures forall k :: 0 <= k < n ==> IsHexDigit(s[k])
    ensures n < |s| ==> !IsHexDigit(s[n])
  {
    if |s| > 0 && IsHexDigit(s[0]) then 1 + HexPrefixLength(s[1..]) else 0
  }

  /** The value of the longest prefix of hexadecimal digits, read most
    * significant first onto `acc`. */
  function HexPrefixValue(s: string, acc: nat): nat
  {
    if |s| > 0 && IsHexDigit(s[0]) then HexPrefixValue(s[1..], acc * 16 + HexDigitValue(s[0])) else acc
  }

  /** A JavaScript number that `parseInt` can produce: NaN or an integer. */
  datatype JsInt = NaN | Int(value: int)

  /** `parseInt(s, 16)`: skip white space, take one optional sign, drop a
    * `0x`/`0X` prefix, then read the longest run of hexadecimal digits; no
    * digit at all gives NaN. */
  function ParseHex(s: string): JsInt
  {
    var t := TrimStart(s);
    var negative := |t| > 0 && t[0] == '-';
    var v := DropHexPrefix(DropSign(t));
    if HexPrefixLength(v) == 0 then NaN
    else if negative then Int(-(HexPrefixValue(v, 0) as int))
    else Int(HexPrefixValue(v, 0))
  }

  function DropSign(t: string): string
  {
    if |t| > 0 && (t[0] == '-' || t[0] == '+') then t[1..] else t
  }

  function DropHexPrefix(u: string): string
  {
    if |u| >= 2 && u[0] == '0' && (u[1] == 'x' || u[1] == 'X') then u[2..] else u
  }

  // ------------------------------------------------------- numbers as text

  function DigitChar(d: nat): char
    requires d < 10
  {
    ('0' as int + d) as char
  }

  /** The decimal text of a natural number. */
  function Decimal(n: nat): (s: string)
    ensures |s| > 0
    ensures forall k :: 0 <= k < |s| ==> '0' <= s[k] <= '9'
  {
    if n < 10 then [DigitChar(n)] else Decimal(n / 10) + [DigitChar(n % 10)]
  }

  /** The text a template literal gives for a `parseInt` result; -0 prints as 0. */
  function NumberText(x: JsInt): string
  {
    match x
    case NaN => "NaN"
    case Int(v) => if v < 0 then "-" + Decimal(-v) else Decimal(v)
  }

  // ------------------------------------------------------- string helpers

  /** `s.slice(a, b)` for non-negative bounds: both are clamped to the length. */
  function Slice(s: string, a: nat, b: nat): (r: string)
    ensures |r| <= |s|
  {
    var a' := if a < |s| then a else |s|;
    var b' := if b < |s| then b else |s|;
    if a' >= b' then "" else s[a'..b']
  }

  /** The first index of `c` in `s`, if any. */
  function FirstIndex(s: string, c: char): (r: Option<nat>)
    ensures r.None? ==> c !in s
    ensures r.Some? ==> r.value < |s| && s[r.value] == c && c !in s[..r.value]
  {
    if |s| == 0 then None
    else if s[0] == c then Some(0)
    else
      match FirstIndex(s[1..], c)
      case None => None
      case Some(i) =>
        assert s[1..][..i] == s[1..i + 1];
        assert s[..i + 1] == [s[0]] + s[1..i + 1];
        Some(i + 1)
  }

  /** `s.replace(c, repl)` with a one-character search string and a
    * replacement without `$` patterns: only the first occurrence is replaced. */
  function ReplaceFirst(s: string, c: char, repl: string): string
  {
    match FirstIndex(s, c)
    case None => s
    case Some(i) => s[..i] + repl + s[i + 1..]
  }

  predicate IsNumberChar(c: char)
  {
    ('0' <= c <= '9') || c == '.'
  }

  /** The start of the run of digits and dots that ends just before `end`. */
  function RunStart(s: string, end: nat): (r: nat)
    requires end <= |s|
    ensures r <= end
    ensures forall k :: r <= k < end ==> IsNumberChar(s[k])
    ensures r == 0 || !IsNumberChar(s[r - 1])
  {
    if end > 0 && IsNumberChar(s[end - 1]) then RunStart(s, end - 1) else end
  }

  /** The regular expression `/[\d.]+\)$/` matches `s` from index `t`. */
  predicate TrailingNumberAt(s: string, t: nat)
  {
    t + 1 < |s| && s[|s| - 1] == ')' && forall k :: t <= k < |s| - 1 ==> IsNumberChar(s[k])
  }

  /** `s.replace(/[\d.]+\)$/, repl)`: the first match, which starts at the
    * beginning of the run of digits and dots before the final `)`, is replaced. */
  function ReplaceTrailingNumber(s: string, repl: string): string
  {
    if |s| >= 2 && s[|s| - 1] == ')' && IsNumberChar(s[|s| - 2]) then s[..RunStart(s, |s| - 1)] + repl
    else s
  }

  // ------------------------------------------------------- colorWithAlpha

  /** `colorWithAlpha(color, alpha)`, where `alpha` is the text of the alpha
    * number (the call site passes 0.53); such a text holds no `$`. */
  function ColorWithAlpha(color: string, alpha: string): string
  {
    if StartsWith(color, "rgba") then
      ReplaceTrailingNumber(color, alpha + ")")
    else if StartsWith(color, "rgb(") then
      // the first "rgb(" of a colour that starts with it is at index 0
      ReplaceFirst("rgba(" + color[4..], ')', ", " + alpha + ")")
    else if StartsWith(color, "#") then
      "rgba(" + NumberText(ParseHex(Slice(color, 1, 3))) + ", " + NumberText(ParseHex(Slice(color, 3, 5))) +
      ", " + NumberText(ParseHex(Slice(color, 5, 7))) + ", " + alpha + ")"
    else
      "rgba(128, 128, 128, " + alpha + ")"
  }

  // ------------------------------------------------------- properties

  /** The regular expression's leftmost match is the one replaced: `RunStart`
    * starts a match, no match starts earlier, and without a match nothing changes. */
  lemma TrailingNumberIsLeftmost(s: string, repl: string)
    ensures |s| >= 2 && s[|s| - 1] == ')' && IsNumberChar(s[|s| - 2]) ==>
              TrailingNumberAt(s, RunStart(s, |s| - 1)) &&
              (forall t: nat :: TrailingNumberAt(s, t) ==> RunStart(s, |s| - 1) <= t) &&
              ReplaceTrailingNumber(s, repl) == s[..RunStart(s, |s| - 1)] + repl
    ensures (forall t: nat :: !TrailingNumberAt(s, t)) ==> ReplaceTrailingNumber(s, repl) == s
  {
    if |s| >= 2 && s[|s| - 1] == ')' && IsNumberChar(s[|s| - 2]) {
      var r := RunStart(s, |s| - 1);
      forall t: nat | TrailingNumberAt(s, t) ensures r <= t {
      }
    }
  }

  /** The lower-case hexadecimal digit of a value below 16. */
  function HexChar(d: nat): (c: char)
    requires d < 16
    ensures IsHexDigit(c) && HexDigitValue(c) == d
  {
    if d < 10 then ('0' as int + d) as char else ('a' as int + d - 10) as char
  }

  /** The two-digit lower-case hexadecimal text of a byte, as in `#rrggbb`. */
  function Hex2(v: nat): (s: string)
    requires v < 256
    ensures |s| == 2 && IsHexDigit(s[0]) && IsHexDigit(s[1])
  {
    [HexChar(v / 16), HexChar(v % 16)]
  }

  /** Two hexadecimal digits with no sign, space or `0x` read as a byte. */
  lemma ParseTwoDigits(c0: char, c1: char)
    requires IsHexDigit(c0) && IsHexDigit(c1) && c0 != '-' && c0 != '+' && !IsJsSpace(c0)
    requires c1 != 'x' && c1 != 'X'
    ensures ParseHex([c0, c1]) == Int(HexDigitValue(c0) * 16 + HexDigitValue(c1))
  {
    var h := [c0, c1];
    assert TrimStart(h) == h;
    assert DropSign(h) == h;
    assert DropHexPrefix(h) == h;
    TwoDigits(c0, c1);
  }

  lemma TwoDigits(c0: char, c1: char)
    requires IsHexDigit(c0) && IsHexDigit(c1)
    ensures HexPrefixLength([c0, c1]) == 2
    ensures HexPrefixValue([c0, c1], 0) == HexDigitValue(c0) * 16 + HexDigitValue(c1)
  {
    var h := [c0, c1];
    assert h[1..] == [c1] && h[1..][1..] == [];
    assert HexPrefixValue(h, 0) == HexPrefixValue([c1], HexDigitValue(c0));
    assert HexPrefixValue([c1], HexDigitValue(c0)) == HexPrefixValue([], HexDigitValue(c0) * 16 + HexDigitValue(c1));
  }

  /** Reading back the two digits of `Hex2(v)` gives `v`. */
  lemma ParseHex2(v: nat)
    requires v < 256
    ensures ParseHex(Hex2(v)) == Int(v)
  {
    var h := Hex2(v);
    HexCharShape(v / 16);
    HexCharShape(v % 16);
    ParseTwoDigits(h[0], h[1]);
    assert h == [h[0], h[1]];
  }

  lemma HexCharShape(d: nat)
    requires d < 16
    ensures var c := HexChar(d); c != '-' && c != '+' && c != 'x' && c != 'X' && !IsJsSpace(c)
  {
  }

  /** A `#rrggbb` colour becomes `rgba(r, g, b, alpha)` with the decimal
    * values of its three bytes; anything after the seventh character is ignored. */
  lemma HexToRgba(r: nat, g: nat, b: nat, rest: string, alpha: string)
    requires r < 256 && g < 256 && b < 256
    ensures ColorWithAlpha("#" + Hex2(r) + Hex2(g) + Hex2(b) + rest, alpha) ==
            "rgba(" + Decimal(r) + ", " + Decimal(g) + ", " + Decimal(b) + ", " + alpha + ")"
  {
    var c := "#" + Hex2(r) + Hex2(g) + Hex2(b) + rest;
    HexFields(Hex2(r), Hex2(g), Hex2(b), rest);
    ParseHex2(r);
    ParseHex2(g);
    ParseHex2(b);
    assert ColorWithAlpha(c, alpha) ==
           "rgba(" + NumberText(ParseHex(Slice(c, 1, 3))) + ", " + NumberText(ParseHex(Slice(c, 3, 5))) +
           ", " + NumberText(ParseHex(Slice(c, 5, 7))) + ", " + alpha + ")";
  }

  /** A `#` followed by three two-character fields takes the hexadecimal
    * branch and slices out exactly those fields. */
  lemma HexFields(h1: string, h2: string, h3: string, rest: string)
    requires |h1| == |h2| == |h3| == 2
    ensures var c := "#" + h1 + h2 + h3 + rest;
            StartsWith(c, "#") && !StartsWith(c, "rgba") && !StartsWith(c, "rgb(") &&
            Slice(c, 1, 3) == h1 && Slice(c, 3, 5) == h2 && Slice(c, 5, 7) == h3
  {
    var c := "#" + h1 + h2 + h3 + rest;
    assert c[0] == '#';
    assert c[..1] == "#";
    assert c[1..3] == h1;
    assert c[3..5] == h2;
    assert c[5..7] == h3;
  }

  /** An `rgb(...)` colour gains the alpha before its closing parenthesis. */
  lemma RgbToRgba(body: string, alpha: string)
    requires ')' !in body
    ensures ColorWithAlpha("rgb(" + body + ")", alpha) == "rgba(" + body + ", " + alpha + ")"
  {
    var c := "rgb(" + body + ")";
    assert !StartsWith(c, "rgba") by {
      assert c[3] == '(';
    }
    assert StartsWith(c, "rgb(") by {
      assert c[..4] == "rgb(";
    }
    var t := "rgba(" + c[4..];
    assert c[4..] == body + ")";
    assert t == "rgba(" + body + ")";
    assert FirstIndex(t, ')') == Some(|t| - 1) by {
      assert ')' !in t[..|t| - 1] by {
        assert t[..|t| - 1] == "rgba(" + body;
      }
    }
    assert t[..|t| - 1] == "rgba(" + body;
  }

  /** The text of a non-negative JS number such as `0.53`: digits and a dot. */
  predicate NumberTextShape(alpha: string)
  {
    |alpha| > 0 && forall k :: 0 <= k < |alpha| ==> IsNumberChar(alpha[k])
  }

  /** An `rgba(...)` colour ending in a number gets that number replaced. */
  lemma RgbaReplacesAlpha(head: string, prev: string, alpha: string)
    requires StartsWith(head, "rgba") && |head| > 0 && !IsNumberChar(head[|head| - 1])
    requires NumberTextShape(prev)
    ensures ColorWithAlpha(head + prev + ")", alpha) == head + alpha + ")"
  {
    var c := head + prev + ")";
    assert StartsWith(c, "rgba") by {
      assert c[..4] == head[..4];
    }
    assert c[|c| - 2] == prev[|prev| - 1];
    RunStartOf(head, prev);
    assert c[..|head|] == head;
  }

  lemma RunStartOf(head: string, prev: string)
    requires |head| > 0 && !IsNumberChar(head[|head| - 1]) && NumberTextShape(prev)
    ensures RunStart(head + prev + ")", |head| + |prev|) == |head|
  {
    var c := head + prev + ")";
    var r := RunStart(c, |head| + |prev|);
    assert c[|head| - 1] == head[|head| - 1];
    assert forall k :: |head| <= k < |head| + |prev| ==> c[k] == prev[k - |head|];
  }

  /** Re-applying `colorWithAlpha` to its own `rgba` output only swaps the alpha. */
  lemma AlphaReplacedOnRepeat(body: string, a1: string, a2: string)
    requires ')' !in body && NumberTextShape(a1)
    ensures ColorWithAlpha(ColorWithAlpha("rgb(" + body + ")", a1), a2) ==
            ColorWithAlpha("rgb(" + body + ")", a2)
  {
    RgbToRgba(body, a1);
    RgbToRgba(body, a2);
    var head := "rgba(" + body + ", ";
    assert "rgba(" + body + ", " + a1 + ")" == head + a1 + ")";
    assert "rgba(" + body + ", " + a2 + ")" == head + a2 + ")";
    assert StartsWith(head, "rgba") by {
      assert head[..4] == "rgba";
    }
    assert head[|head| - 1] == ' ';
    RgbaReplacesAlpha(head, a1, a2);
  }

  /** A colour in none of the three notations falls back to mid grey. */
  lemma FallbackGrey(color: string, alpha: string)
    requires !StartsWith(color, "rgb") && !StartsWith(color, "#")
    ensures ColorWithAlpha(color, alpha) == "rgba(128, 128, 128, " + alpha + ")"
  {
    if |color| >= 4 {
      assert color[..3] == color[..4][..3];
    }
  }
}
