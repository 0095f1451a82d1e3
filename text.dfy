/**
 * String helpers shared by the server and the client: `slice`, `trim`,
 * `split`, `join` and the rendering of integers by `String(n)`. Strings are
 * sequences of Unicode characters, so lengths and cut points count code
 * points; JavaScript counts UTF-16 code units, which differ from code points
 * only for characters outside the Basic Multilingual Plane.
 */
module Text {
  import opened Wrappers

  /** `s.slice(0, n)`: the first `n` characters, or all of `s` when it is shorter. */
  function Take(s: string, n: nat): (r: string)
    ensures |r| == if |s| <= n then |s| else n
    ensures r <= s
  {
    if |s| <= n then s else s[..n]
  }

  /**
   * `truncate(str, max)` of the event parser and `truncateLabel(text, maxLen)`
   * of the canvas, which are the same function: a string no longer than `max`
   * comes back unchanged, a longer one keeps its first `max` characters and
   * gets "..." appended.
   */
  function Truncate(s: string, max: nat): (r: string)
    ensures |s| <= max ==> r == s
    ensures |s| > max ==> |r| == max + 3 && r[..max] == s[..max] && r[max..] == "..."
    ensures |r| <= max + 3
  {
    if |s| <= max then s else s[..max] + "..."
  }

  /** Truncating an already truncated string at the same bound changes nothing. */
  lemma TruncateIdempotent(s: string, max: nat)
    ensures Truncate(Truncate(s, max), max) == Truncate(s, max)
  {
    if |s| > max {
      var r := Truncate(s, max);
      assert r[..max] + "..." == r;
    }
  }

  // ----- whitespace and trim -----

  /**
   * The characters `String.prototype.trim` removes: the WhiteSpace and
   * LineTerminator code points of ECMA-262 (section 12.2 and 12.3), that is
   * TAB, VT, FF, ZWNBSP, the Unicode space separators, LF, CR, LS and PS.
   */
  predicate IsJsWhitespace(c: char) {
    || c == '\U{0009}' || c == '\U{000B}' || c == '\U{000C}' || c == '\U{FEFF}'
    || c == '\U{0020}' || c == '\U{00A0}' || c == '\U{1680}'
    || ('\U{2000}' <= c <= '\U{200A}') || c == '\U{202F}' || c == '\U{205F}' || c == '\U{3000}'
    || c == '\U{000A}' || c == '\U{000D}' || c == '\U{2028}' || c == '\U{2029}'
  }

  /** Every character of `s` is whitespace (the empty string is blank). */
  predicate Blank(s: string) {
    forall i :: 0 <= i < |s| ==> IsJsWhitespace(s[i])
  }

  function TrimStart(s: string): (r: string)
    ensures |r| <= |s| && r == s[|s| - |r|..]
    ensures r == "" || !IsJsWhitespace(r[0])
    ensures Blank(s[..|s| - |r|])
  {
    if |s| == 0 || !IsJsWhitespace(s[0]) then s
    else
      var r := TrimStart(s[1..]);
      assert s[1..][..|s[1..]| - |r|] == s[1..|s| - |r|];
      r
  }

  function TrimEnd(s: string): (r: string)
    ensures |r| <= |s| && r == s[..|r|]
    ensures r == "" || !IsJsWhitespace(r[|r| - 1])
    ensures Blank(s[|r|..])
  {
    if |s| == 0 || !IsJsWhitespace(s[|s| - 1]) then s
    else
      var r := TrimEnd(s[..|s| - 1]);
      assert s[..|s| - 1][|r|..] == s[|r|..|s| - 1];
      r
  }

  /** `s.trim()`: leading and trailing whitespace removed. */
  function Trim(s: string): (r: string) {
    TrimEnd(TrimStart(s))
  }

  /** `s.trim()` is empty, i.e. falsy, exactly when `s` is blank. */
  lemma TrimEmptyIffBlank(s: string)
    ensures Trim(s) == "" <==> Blank(s)
  {
    var t := TrimStart(s);
    if !Blank(s) {
      var i :| 0 <= i < |s| && !IsJsWhitespace(s[i]);
      assert t[i - (|s| - |t|)] == s[i];
    }
  }

  // ----- split and join -----

  /** The index of the first occurrence of `c` in `s`, or -1. */
  function IndexOf(s: string, c: char): (i: int)
    ensures -1 <= i < |s|
    ensures i >= 0 ==> s[i] == c && c !in s[..i]
    ensures i < 0 <==> c !in s
  {
    if |s| == 0 then -1
    else if s[0] == c then 0
    else
      var j := IndexOf(s[1..], c);
      if j < 0 then -1
      else
        assert s[..j + 1] == [s[0]] + s[1..][..j];
        j + 1
  }

  /** `s.split(sep)` for a one-character separator: at least one part, none containing `sep`. */
  function Split(s: string, sep: char): (parts: seq<string>)
    ensures |parts| >= 1
    ensures forall k :: 0 <= k < |parts| ==> sep !in parts[k]
    decreases |s|
  {
    var i := IndexOf(s, sep);
    if i < 0 then [s]
    else
      var rest := Split(s[i + 1..], sep);
      assert forall k :: 1 <= k <= |rest| ==> ([s[..i]] + rest)[k] == rest[k - 1];
      [s[..i]] + rest
  }

  /** `parts.join(sep)`; the empty array joins to "". */
  function Join(parts: seq<string>, sep: string): string {
    if |parts| == 0 then ""
    else if |parts| == 1 then parts[0]
    else parts[0] + sep + Join(parts[1..], sep)
  }

  lemma JoinCons(head: string, tail: seq<string>, sep: string)
    requires |tail| >= 1
    ensures Join([head] + tail, sep) == head + sep + Join(tail, sep)
  {
    assert ([head] + tail)[1..] == tail;
  }

  /** Joining the parts of a split with the separator restores the string. */
  lemma {:induction false} SplitThenJoin(s: string, sep: char)
    ensures Join(Split(s, sep), [sep]) == s
    decreases |s|
  {
    var i := IndexOf(s, sep);
    if i < 0 {
      assert Split(s, sep) == [s];
    } else {
      var rest := s[i + 1..];
      var tail := Split(rest, sep);
      assert Split(s, sep) == [s[..i]] + tail;
      SplitThenJoin(rest, sep);
      JoinCons(s[..i], tail, [sep]);
      assert s[..i + 1] == s[..i] + [sep];
      assert s == s[..i + 1] + rest;
    }
  }

  /** Splitting a join of separator-free parts gives the parts back. */
  lemma {:induction false} JoinThenSplit(parts: seq<string>, sep: char)
    requires |parts| >= 1
    requires forall k :: 0 <= k < |parts| ==> sep !in parts[k]
    ensures Split(Join(parts, [sep]), sep) == parts
  {
    if |parts| > 1 {
      var head := parts[0];
      var rest := Join(parts[1..], [sep]);
      var s := head + [sep] + rest;
      assert Join(parts, [sep]) == s;
      var i := IndexOf(s, sep);
      assert s[|head|] == sep;
      assert s[..|head|] == head;
      assert i == |head|;
      assert s[i + 1..] == rest;
      JoinThenSplit(parts[1..], sep);
    }
  }

  // ----- integers as String(n) renders them -----

  function DigitChar(d: nat): (c: char)
    requires d < 10
    ensures '0' <= c <= '9' && (c as int) - ('0' as int) == d
  {
    (('0' as int) + d) as char
  }

  predicate AllDigits(s: string) {
    forall i :: 0 <= i < |s| ==> '0' <= s[i] <= '9'
  }

  /** The decimal digits of `n`, most significant first, without leading zeros. */
  function NatToDecimal(n: nat): (s: string)
    ensures |s| >= 1 && AllDigits(s)
    ensures s[0] == '0' ==> n == 0
  {
    if n < 10 then [DigitChar(n)] else NatToDecimal(n / 10) + [DigitChar(n % 10)]
  }

  /** `String(i)` for an integer of magnitude below 10^21. */
  function IntToDecimal(i: int): (s: string)
    ensures |s| >= 1
  {
    if i < 0 then "-" + NatToDecimal(-i) else NatToDecimal(i)
  }

  /** The value of a string of decimal digits. */
  function DecimalValue(s: string): nat
    requires AllDigits(s)
  {
    if |s| == 0 then 0
    else DecimalValue(s[..|s| - 1]) * 10 + ((s[|s| - 1] as int) - ('0' as int))
  }

  /** Reads back what `IntToDecimal` writes: an optional "-" and one or more digits. */
  function ParseDecimal(s: string): Option<int> {
    if |s| >= 2 && s[0] == '-' && AllDigits(s[1..]) then Some(0 - DecimalValue(s[1..]))
    else if |s| >= 1 && AllDigits(s) then Some(DecimalValue(s))
    else None
  }

  lemma {:induction false} NatToDecimalRoundTrip(n: nat)
    ensures DecimalValue(NatToDecimal(n)) == n
  {
    if n >= 10 {
      NatToDecimalRoundTrip(n / 10);
      var s := NatToDecimal(n);
      assert s[..|s| - 1] == NatToDecimal(n / 10);
    }
  }

  /** Digit strings read back as their value, with or without a leading "-". */
  lemma ParseDigits(d: string)
    requires |d| >= 1 && AllDigits(d)
    ensures ParseDecimal(d) == Some(DecimalValue(d))
    ensures ParseDecimal("-" + d) == Some(0 - DecimalValue(d))
  {
    var m := "-" + d;
    assert m[0] == '-' && m[1..] == d;
  }

  /** Decimal rendering of integers is undone by `ParseDecimal`: no two integers render alike. */
  lemma IntToDecimalRoundTrip(i: int)
    ensures ParseDecimal(IntToDecimal(i)) == Some(i)
  {
    var d := NatToDecimal(if i < 0 then -i else i);
    NatToDecimalRoundTrip(if i < 0 then -i else i);
    ParseDigits(d);
  }

  /** A rendered integer contains neither a comma nor a parenthesis. */
  lemma IntToDecimalHasNoPunctuation(i: int)
    ensures ',' !in IntToDecimal(i) && ')' !in IntToDecimal(i)
  {
    var d := NatToDecimal(if i < 0 then -i else i);
    assert ',' !in d && ')' !in d by {
      forall k | 0 <= k < |d| ensures d[k] != ',' && d[k] != ')' {
        assert '0' <= d[k] <= '9';
      }
    }
    if i < 0 {
      assert IntToDecimal(i) == "-" + d;
    }
  }
}
