/**
 * The colour arithmetic the node renderer uses: reading a "#rrggbb" colour
 * as a base-16 number once its first '#' is removed, taking its channels with shifts
 * and masks, lightening each channel by a percentage capped at 255, and
 * printing the CSS `rgb(...)`/`rgba(...)` strings.
 */
module NodeColors {
  import opened Wrappers
  import opened Text

  // ----- parseInt(_, 16) -----

  predicate IsHexDigit(c: char) {
    ('0' <= c <= '9') || ('a' <= c <= 'f') || ('A' <= c <= 'F')
  }

  predicate AllHex(s: string) {
    forall i :: 0 <= i < |s| ==> IsHexDigit(s[i])
  }

  function HexDigitValue(c: char): (v: nat)
    requires IsHexDigit(c)
    ensures v < 16
  {
    if '0' <= c <= '9' then (c as int) - ('0' as int)
    else if 'a' <= c <= 'f' then (c as int) - ('a' as int) + 10
    else (c as int) - ('A' as int) + 10
  }

  /** The longest prefix of hex digits: what `parseInt` reads before it stops. */
  function LeadingHexDigits(s: string): (r: string)
    ensures r <= s && AllHex(r)
    ensures |r| < |s| ==> !IsHexDigit(s[|r|])
  {
    if |s| > 0 && IsHexDigit(s[0]) then [s[0]] + LeadingHexDigits(s[1..]) else ""
  }

  /** The value of a string of hex digits, most significant first. */
  function HexValue(d: string): nat
    requires AllHex(d)
  {
    if |d| == 0 then 0 else HexValue(d[..|d| - 1]) * 16 + HexDigitValue(d[|d| - 1])
  }

  /** `parseInt(s, 16)`, with `None` for NaN (no leading hex digit). */
  function ParseHex(s: string): Option<nat> {
    var d := LeadingHexDigits(s);
    if d == "" then None else Some(HexValue(d))
  }

  /** `s.replace(c, '')` for a one-character pattern: only the first occurrence goes. */
  function RemoveFirst(s: string, c: char): (r: string)
    ensures c in s ==> |r| == |s| - 1
    ensures c !in s ==> r == s
  {
    var i := IndexOf(s, c);
    if i < 0 then s else s[..i] + s[i + 1..]
  }

  /** The number the colour helpers shift and mask: NaN becomes 0 under the bit operators. */
  function ColorNumber(hex: string): nat {
    ParseHex(RemoveFirst(hex, '#')).GetOr(0)
  }

  /** `(num >> 16) & 0xff`, `(num >> 8) & 0xff` and `num & 0xff`. */
  function Red(num: nat): nat { (num / 0x10000) % 0x100 }
  function Green(num: nat): nat { (num / 0x100) % 0x100 }
  function Blue(num: nat): nat { num % 0x100 }

  /** Every channel is a byte. */
  lemma ChannelsAreBytes(hex: string)
    ensures var n := ColorNumber(hex);
      Red(n) <= 255 && Green(n) <= 255 && Blue(n) <= 255
  {
  }

  // ----- rgb(...) and rgba(...) -----

  /** `Math.round`: halves go up. */
  function Round(x: real): int {
    (x + 0.5).Floor
  }

  function Min(a: int, b: int): int {
    if a <= b then a else b
  }

  /** One channel of `lightenColor`: add round(255·percent/100), cap at 255. */
  function Lighten(channel: int, percent: real): int {
    Min(255, channel + Round(255.0 * percent / 100.0))
  }

  function RgbText(r: int, g: int, b: int): string {
    "rgb(" + (IntToDecimal(r) + "," + IntToDecimal(g) + "," + IntToDecimal(b)) + ")"
  }

  /** `lightenColor(hex, percent)`. */
  function LightenColor(hex: string, percent: real): string {
    var num := ColorNumber(hex);
    RgbText(Lighten(Red(num), percent), Lighten(Green(num), percent), Lighten(Blue(num), percent))
  }

  /** `colorWithAlpha(hex, alpha)`; `alphaText` is `String(alpha)`. */
  function ColorWithAlpha(hex: string, alphaText: string): string {
    var num := ColorNumber(hex);
    RgbaText(Red(num), Green(num), Blue(num), alphaText)
  }

  /** Lightening caps at 255; a non-negative percent never darkens a byte; zero percent
      leaves it as it is; the ring stroke's 30% adds 77. */
  lemma LightenBounds(channel: int, percent: real)
    ensures Lighten(channel, percent) <= 255
    ensures 0 <= channel <= 255 && percent >= 0.0 ==> channel <= Lighten(channel, percent)
    ensures 0 <= channel <= 255 && percent == 0.0 ==> Lighten(channel, percent) == channel
    ensures Lighten(channel, 30.0) == Min(255, channel + 77)
  {
    if percent >= 0.0 {
      assert 255.0 * percent / 100.0 + 0.5 >= 0.0;
    }
    assert 255.0 * 30.0 / 100.0 + 0.5 == 77.0;
  }

  /** The text between `open` and a final ")", if `s` is so bracketed. */
  function Inside(s: string, open: string): Option<string> {
    if |s| >= |open| + 1 && s[..|open|] == open && s[|s| - 1] == ')' then Some(s[|open|..|s| - 1]) else None
  }

  lemma InsideOf(open: string, inner: string)
    ensures Inside(open + inner + ")", open) == Some(inner)
  {
    var s := open + inner + ")";
    assert s[..|open|] == open;
    assert s[|open|..|s| - 1] == inner;
  }

  /** Three comma-separated integers. */
  function ReadInts(inner: string): Option<(int, int, int)> {
    var parts := Split(inner, ',');
    if |parts| == 3 then
      match (ParseDecimal(parts[0]), ParseDecimal(parts[1]), ParseDecimal(parts[2]))
      case (Some(r), Some(g), Some(b)) => Some((r, g, b))
      case _ => None
    else None
  }

  /** Three comma-separated integers and a last field taken as it is. */
  function ReadIntsAndText(inner: string): Option<(int, int, int, string)> {
    var parts := Split(inner, ',');
    if |parts| == 4 then
      match (ParseDecimal(parts[0]), ParseDecimal(parts[1]), ParseDecimal(parts[2]))
      case (Some(r), Some(g), Some(b)) => Some((r, g, b, parts[3]))
      case _ => None
    else None
  }

  /** The `rgb(...)` fields read back as three integers: the parser a CSS engine applies. */
  function ReadRgb(s: string): Option<(int, int, int)> {
    match Inside(s, "rgb(")
    case Some(inner) => ReadInts(inner)
    case None => None
  }

  /** The fields of an `rgba(...)` string: three integers and the alpha text. */
  function ReadRgba(s: string): Option<(int, int, int, string)> {
    match Inside(s, "rgba(")
    case Some(inner) => ReadIntsAndText(inner)
    case None => None
  }

  /** `a + "," + b + ... ` is the comma join of the parts. */
  lemma JoinThree(a: string, b: string, c: string)
    ensures Join([a, b, c], ",") == a + "," + b + "," + c
  {
    JoinCons(a, [b, c], ",");
    JoinCons(b, [c], ",");
    assert [a, b, c] == [a] + [b, c];
    assert [b, c] == [b] + [c];
  }

  lemma JoinFour(a: string, b: string, c: string, d: string)
    ensures Join([a, b, c, d], ",") == a + "," + b + "," + c + "," + d
  {
    JoinThree(b, c, d);
    JoinCons(a, [b, c, d], ",");
    assert [a, b, c, d] == [a] + [b, c, d];
  }

  /** Comma-free renderings of three integers, joined by commas, read back as the integers. */
  lemma ReadIntsOf(dr: string, dg: string, db: string, r: int, g: int, b: int)
    requires ParseDecimal(dr) == Some(r) && ParseDecimal(dg) == Some(g) && ParseDecimal(db) == Some(b)
    requires ',' !in dr && ',' !in dg && ',' !in db
    ensures ReadInts(dr + "," + dg + "," + db) == Some((r, g, b))
  {
    JoinThree(dr, dg, db);
    JoinThenSplit([dr, dg, db], ',');
  }

  lemma ReadIntsAndTextOf(dr: string, dg: string, db: string, alphaText: string, r: int, g: int, b: int)
    requires ParseDecimal(dr) == Some(r) && ParseDecimal(dg) == Some(g) && ParseDecimal(db) == Some(b)
    requires ',' !in dr && ',' !in dg && ',' !in db && ',' !in alphaText
    ensures ReadIntsAndText(dr + "," + dg + "," + db + "," + alphaText) == Some((r, g, b, alphaText))
  {
    JoinFour(dr, dg, db, alphaText);
    JoinThenSplit([dr, dg, db, alphaText], ',');
  }

  /** `RgbText` is read back exactly: the output is precisely `rgb(r,g,b)`. */
  lemma RgbReadsBack(r: int, g: int, b: int)
    ensures ReadRgb(RgbText(r, g, b)) == Some((r, g, b))
  {
    var dr, dg, db := IntToDecimal(r), IntToDecimal(g), IntToDecimal(b);
    InsideOf("rgb(", dr + "," + dg + "," + db);
    IntToDecimalRoundTrip(r);
    IntToDecimalRoundTrip(g);
    IntToDecimalRoundTrip(b);
    IntToDecimalHasNoPunctuation(r);
    IntToDecimalHasNoPunctuation(g);
    IntToDecimalHasNoPunctuation(b);
    ReadIntsOf(dr, dg, db, r, g, b);
  }

  /** So a lightened colour is exactly `rgb(` the three lightened channels `)`. */
  lemma LightenColorReadsBack(hex: string, percent: real)
    ensures var n := ColorNumber(hex);
      ReadRgb(LightenColor(hex, percent)) == Some((Lighten(Red(n), percent), Lighten(Green(n), percent), Lighten(Blue(n), percent)))
  {
    var n := ColorNumber(hex);
    RgbReadsBack(Lighten(Red(n), percent), Lighten(Green(n), percent), Lighten(Blue(n), percent));
  }

  function RgbaText(r: int, g: int, b: int, alphaText: string): string {
    "rgba(" + (IntToDecimal(r) + "," + IntToDecimal(g) + "," + IntToDecimal(b) + "," + alphaText) + ")"
  }

  /** `RgbaText` is read back exactly whenever the alpha text has no comma. */
  lemma RgbaReadsBack(r: int, g: int, b: int, alphaText: string)
    requires ',' !in alphaText
    ensures ReadRgba(RgbaText(r, g, b, alphaText)) == Some((r, g, b, alphaText))
  {
    var dr, dg, db := IntToDecimal(r), IntToDecimal(g), IntToDecimal(b);
    InsideOf("rgba(", dr + "," + dg + "," + db + "," + alphaText);
    IntToDecimalRoundTrip(r);
    IntToDecimalRoundTrip(g);
    IntToDecimalRoundTrip(b);
    IntToDecimalHasNoPunctuation(r);
    IntToDecimalHasNoPunctuation(g);
    IntToDecimalHasNoPunctuation(b);
    ReadIntsAndTextOf(dr, dg, db, alphaText, r, g, b);
  }

  /** And `colorWithAlpha` is exactly `rgba(r,g,b,alpha)` with the colour's three bytes. */
  lemma ColorWithAlphaReadsBack(hex: string, alphaText: string)
    requires ',' !in alphaText
    ensures var n := ColorNumber(hex);
      ReadRgba(ColorWithAlpha(hex, alphaText)) == Some((Red(n), Green(n), Blue(n), alphaText))
  {
    var n := ColorNumber(hex);
    assert ColorWithAlpha(hex, alphaText) == RgbaText(Red(n), Green(n), Blue(n), alphaText);
    RgbaReadsBack(Red(n), Green(n), Blue(n), alphaText);
  }

  // ----- "#rrggbb" colours -----

  function HexChar(d: nat): (c: char)
    requires d < 16
    ensures IsHexDigit(c) && HexDigitValue(c) == d
  {
    if d < 10 then (('0' as int) + d) as char else (('a' as int) + d - 10) as char
  }

  function Hex2(v: nat): string
    requires v < 256
  {
    [HexChar(v / 16), HexChar(v % 16)]
  }

  /** The "#rrggbb" spelling of three bytes, as the palette writes colours. */
  function HexColor(r: nat, g: nat, b: nat): string
    requires r < 256 && g < 256 && b < 256
  {
    "#" + Hex2(r) + Hex2(g) + Hex2(b)
  }

  lemma {:induction false} LeadingHexOfHex(s: string)
    requires AllHex(s)
    ensures LeadingHexDigits(s) == s
  {
    if |s| > 0 {
      LeadingHexOfHex(s[1..]);
      assert s == [s[0]] + s[1..];
    }
  }

  lemma HexValuePair(pre: string, v: nat)
    requires AllHex(pre) && v < 256
    ensures AllHex(pre + Hex2(v)) && HexValue(pre + Hex2(v)) == HexValue(pre) * 256 + v
  {
    var s := pre + Hex2(v);
    assert s[..|s| - 1] == pre + [HexChar(v / 16)];
    assert (pre + [HexChar(v / 16)])[..|pre|] == pre;
  }

  lemma Bytes(r: nat, g: nat, b: nat)
    requires r < 256 && g < 256 && b < 256
    ensures var n := (r * 256 + g) * 256 + b;
      Red(n) == r && Green(n) == g && Blue(n) == b
  {
    var n := (r * 256 + g) * 256 + b;
    assert n == r * 0x10000 + (g * 256 + b);
    assert n / 0x10000 == r;
    assert n / 256 == r * 256 + g;
  }

  /** Reading "#rrggbb" gives back the three bytes it spells. */
  lemma HexColorChannels(r: nat, g: nat, b: nat)
    requires r < 256 && g < 256 && b < 256
    ensures var n := ColorNumber(HexColor(r, g, b));
      Red(n) == r && Green(n) == g && Blue(n) == b
  {
    var digits := Hex2(r) + Hex2(g) + Hex2(b);
    assert HexColor(r, g, b) == "#" + digits;
    assert IndexOf("#" + digits, '#') == 0;
    assert RemoveFirst(HexColor(r, g, b), '#') == digits;
    HexValuePair("", r);
    assert "" + Hex2(r) == Hex2(r);
    HexValuePair(Hex2(r), g);
    HexValuePair(Hex2(r) + Hex2(g), b);
    LeadingHexOfHex(digits);
    Bytes(r, g, b);
  }
}
