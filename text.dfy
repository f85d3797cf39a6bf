/** The string operations the portal's pages use: `toLowerCase`, `includes`,
    `startsWith`, `trim`, `split`, `join`, `slice(-n)` and `toString().padStart`. */
module Text {
  import opened Wrappers


  /** The characters `String.prototype.trim` strips: ECMAScript's white space and
      line terminators. */
  predicate IsWhitespace(c: char) {
    c == ' ' || c == '\t' || c == '\n' || c == '\r' || c == '\U{000B}' || c == '\U{000C}' ||
    c == '\U{00A0}' || c == '\U{1680}' || ('\U{2000}' <= c <= '\U{200A}') ||
    c == '\U{2028}' || c == '\U{2029}' || c == '\U{202F}' || c == '\U{205F}' ||
    c == '\U{3000}' || c == '\U{FEFF}'
  }

  /** Lower-cases an ASCII capital and leaves every other character alone. */
  function LowerChar(c: char): (d: char)
    ensures 'A' <= c <= 'Z' ==> 'a' <= d <= 'z' && d as int == c as int + 32
    ensures !('A' <= c <= 'Z') ==> d == c
  {
    if 'A' <= c <= 'Z' then (c as int + 32) as char else c
  }

  /** `s.toLowerCase()` over ASCII. */
  function ToLower(s: string): (r: string)
    ensures |r| == |s|
    ensures forall i :: 0 <= i < |s| ==> r[i] == LowerChar(s[i])
  {
    if s == [] then [] else [LowerChar(s[0])] + ToLower(s[1..])
  }

  /** Lower-casing twice is lower-casing once, so comparing lower-cased strings
      ignores case whatever case the inputs were in. */
  lemma ToLowerIdempotent(s: string)
    ensures ToLower(ToLower(s)) == ToLower(s)
  {
    assert forall i :: 0 <= i < |s| ==> LowerChar(LowerChar(s[i])) == LowerChar(s[i]);
  }

  /** `s.startsWith(prefix)`. */
  predicate StartsWith(s: string, prefix: string) {
    |prefix| <= |s| && s[..|prefix|] == prefix
  }

  /** `needle` occurs in `hay` at position `i`. */
  predicate OccursAt(hay: string, needle: string, i: int) {
    0 <= i && i + |needle| <= |hay| && hay[i..i + |needle|] == needle
  }

  /** `hay.includes(needle)`: a contiguous occurrence somewhere; the empty string
      occurs in every string. */
  function Contains(hay: string, needle: string): (r: bool)
    ensures r <==> exists i :: OccursAt(hay, needle, i)
    decreases |hay|
  {
    if StartsWith(hay, needle) then
      assert OccursAt(hay, needle, 0);
      true
    else if hay == [] then
      false
    else
      if Contains(hay[1..], needle) then
        ghost var i :| OccursAt(hay[1..], needle, i);
        OccursAtTail(hay, needle, i + 1);
        true
      else
        forall i | 1 <= i ensures !OccursAt(hay, needle, i) {
          OccursAtTail(hay, needle, i);
        }
        false
  }

  /** An occurrence after the first character is an occurrence in the tail, one
      position earlier. */
  lemma OccursAtTail(hay: string, needle: string, i: int)
    requires hay != [] && i >= 1
    ensures OccursAt(hay, needle, i) == OccursAt(hay[1..], needle, i - 1)
  {
    if i + |needle| <= |hay| {
      assert hay[1..][i - 1..i - 1 + |needle|] == hay[i..i + |needle|];
    }
  }

  /** `hay.toLowerCase().includes(needle.toLowerCase())`: the pages' search test. */
  predicate ContainsIgnoringCase(hay: string, needle: string) {
    Contains(ToLower(hay), ToLower(needle))
  }

  /** The empty search term matches every string. */
  lemma EmptyTermMatches(hay: string)
    ensures ContainsIgnoringCase(hay, "")
  {
    assert OccursAt(ToLower(hay), ToLower(""), 0);
  }

  /** How many white-space characters `s` starts with. */
  function LeadingWhitespace(s: string): (n: nat)
    ensures n <= |s|
    ensures forall k :: 0 <= k < n ==> IsWhitespace(s[k])
    ensures n == |s| || !IsWhitespace(s[n])
  {
    if s != [] && IsWhitespace(s[0]) then 1 + LeadingWhitespace(s[1..]) else 0
  }

  /** How many white-space characters `s` ends with. */
  function TrailingWhitespace(s: string): (n: nat)
    ensures n <= |s|
    ensures forall k :: |s| - n <= k < |s| ==> IsWhitespace(s[k])
    ensures n == |s| || !IsWhitespace(s[|s| - 1 - n])
  {
    if s != [] && IsWhitespace(s[|s| - 1]) then 1 + TrailingWhitespace(s[..|s| - 1]) else 0
  }

  /** `s.trim()`: `s` without its leading and trailing white space. */
  function Trim(s: string): (r: string)
    ensures exists i, j :: 0 <= i <= j <= |s| && r == s[i..j] &&
                           (forall k :: 0 <= k < i ==> IsWhitespace(s[k])) &&
                           (forall k :: j <= k < |s| ==> IsWhitespace(s[k]))
    ensures r == [] || (!IsWhitespace(r[0]) && !IsWhitespace(r[|r| - 1]))
  {
    var i := LeadingWhitespace(s);
    var rest := s[i..];
    var n := TrailingWhitespace(rest);
    assert forall k :: |rest| - n <= k < |rest| ==> s[i + k] == rest[k];
    s[i..|s| - n]
  }

  /** `!s.trim()`: the string is blank exactly when it is all white space. */
  lemma {:induction false} TrimEmptyIffBlank(s: string)
    ensures Trim(s) == [] <==> forall k :: 0 <= k < |s| ==> IsWhitespace(s[k])
  {
    var i := LeadingWhitespace(s);
    if Trim(s) == [] {
      var rest := s[i..];
      var n := TrailingWhitespace(rest);
      assert |s| - n == i;
    } else {
      assert i < |s|;
    }
  }

  /** A string with no white space at either end is its own trim. */
  lemma TrimUnchanged(s: string)
    requires s == [] || (!IsWhitespace(s[0]) && !IsWhitespace(s[|s| - 1]))
    ensures Trim(s) == s
  {
    if s != [] {
      assert LeadingWhitespace(s) == 0;
      assert TrailingWhitespace(s) == 0;
    }
  }

  /** A trimmed string has nothing left to trim. */
  lemma TrimIdempotent(s: string)
    ensures Trim(Trim(s)) == Trim(s)
  {
    TrimUnchanged(Trim(s));
  }

  /** `s.length`: JavaScript strings count UTF-16 code units, so a character outside
      the Basic Multilingual Plane counts twice. */
  function Utf16Length(s: string): (n: nat)
    ensures |s| <= n <= 2 * |s|
    ensures (forall k :: 0 <= k < |s| ==> (s[k] as int) < 0x1_0000) ==> n == |s|
  {
    if s == [] then 0 else (if (s[0] as int) < 0x1_0000 then 1 else 2) + Utf16Length(s[1..])
  }

  /** How many times `c` occurs in `s`. */
  function Occurrences(s: string, c: char): nat {
    if s == [] then 0 else (if s[0] == c then 1 else 0) + Occurrences(s[1..], c)
  }

  /** `pieces.join(sep)`. */
  function Join(pieces: seq<string>, sep: string): string {
    if pieces == [] then ""
    else if |pieces| == 1 then pieces[0]
    else pieces[0] + sep + Join(pieces[1..], sep)
  }

  /** `s.split(c)` for a one-character separator: the pieces between the separators;
      there is one more piece than there are separators, no piece holds the separator,
      and joining the pieces with the separator gives `s` back. */
  function Split(s: string, c: char): (r: seq<string>)
    ensures |r| == Occurrences(s, c) + 1
    ensures forall k :: 0 <= k < |r| ==> c !in r[k]
    ensures Join(r, [c]) == s
  {
    if s == [] then [""]
    else
      var rest := Split(s[1..], c);
      if s[0] == c then
        assert s == [c] + s[1..];
        [""] + rest
      else
        var r := [[s[0]] + rest[0]] + rest[1..];
        assert r[1..] == rest[1..];
        assert s == [s[0]] + s[1..];
        r
  }

  /** `s.split(c).map(p => p.trim())`: the comma-separated lists of the sign-up form
      and the scan page. */
  function SplitTrim(s: string, c: char): (r: seq<string>)
    ensures |r| == Occurrences(s, c) + 1
    ensures forall k :: 0 <= k < |r| ==> r[k] == Trim(Split(s, c)[k])
  {
    var pieces := Split(s, c);
    seq(|pieces|, k requires 0 <= k < |pieces| => Trim(pieces[k]))
  }

  /** `s.slice(-n)`: the last `n` characters, or all of `s` when it is shorter. */
  function LastChars(s: string, n: nat): (r: string)
    ensures |r| == if |s| < n then |s| else n
    ensures r == s[|s| - |r|..]
  {
    if |s| <= n then s else s[|s| - n..]
  }

  /** The decimal digit for `d`. */
  function DigitChar(d: nat): (c: char)
    requires d < 10
    ensures '0' <= c <= '9'
  {
    ('0' as int + d) as char
  }

  /** The value of a decimal digit character. */
  function DigitValue(c: char): (d: nat)
    requires '0' <= c <= '9'
    ensures d < 10 && DigitChar(d) == c
  {
    c as int - '0' as int
  }

  /** `n.toString()` for a non-negative integer. */
  function DecimalString(n: nat): (r: string)
    ensures |r| >= 1
    ensures forall k :: 0 <= k < |r| ==> '0' <= r[k] <= '9'
  {
    if n < 10 then [DigitChar(n)] else DecimalString(n / 10) + [DigitChar(n % 10)]
  }

  /** `s.padStart(width, fill)`. */
  function PadStart(s: string, width: nat, fill: char): (r: string)
    ensures |r| == if |s| < width then width else |s|
    ensures r[|r| - |s|..] == s
    ensures forall k :: 0 <= k < |r| - |s| ==> r[k] == fill
  {
    if |s| < width then seq(width - |s|, _ => fill) + s else s
  }

  /** `n.toString().padStart(2, '0')` for a two-digit quantity: exactly the tens digit
      followed by the units digit. */
  lemma TwoDigitPad(n: nat)
    requires n < 100
    ensures PadStart(DecimalString(n), 2, '0') == [DigitChar(n / 10), DigitChar(n % 10)]
  {
    if n >= 10 {
      assert DecimalString(n) == [DigitChar(n / 10), DigitChar(n % 10)];
    }
  }

  /** A JavaScript number as `parseInt` produces it: an integer or `NaN`. */
  datatype JsNumber = Num(value: int) | NaN

  predicate IsDecimalDigit(c: char) {
    '0' <= c <= '9'
  }

  predicate IsHexDigit(c: char) {
    '0' <= c <= '9' || 'a' <= c <= 'f' || 'A' <= c <= 'F'
  }

  function HexDigitValue(c: char): (d: nat)
    requires IsHexDigit(c)
    ensures d < 16
  {
    if '0' <= c <= '9' then c as int - '0' as int
    else if 'a' <= c <= 'f' then c as int - 'a' as int + 10
    else c as int - 'A' as int + 10
  }

  /** The longest prefix of `s` made of characters satisfying `digit`. */
  function DigitPrefix(s: string, digit: char -> bool): (n: nat)
    ensures n <= |s|
    ensures forall k :: 0 <= k < n ==> digit(s[k])
    ensures n == |s| || !digit(s[n])
  {
    if s != [] && digit(s[0]) then 1 + DigitPrefix(s[1..], digit) else 0
  }

  /** The value of a string of decimal digits, most significant first. */
  function DecimalValue(s: string): nat
    requires forall k :: 0 <= k < |s| ==> IsDecimalDigit(s[k])
  {
    if s == [] then 0
    else
      assert IsDecimalDigit(s[|s| - 1]);
      10 * DecimalValue(s[..|s| - 1]) + DigitValue(s[|s| - 1])
  }

  /** The value of a string of hexadecimal digits, most significant first. */
  function HexValue(s: string): nat
    requires forall k :: 0 <= k < |s| ==> IsHexDigit(s[k])
  {
    if s == [] then 0 else 16 * HexValue(s[..|s| - 1]) + HexDigitValue(s[|s| - 1])
  }

  /** The unsigned part of `parseInt`: a `0x`/`0X` prefix selects hexadecimal, then
      the longest run of digits is read and anything after it ignored; no digits at
      all gives nothing. */
  function ParseUnsigned(u: string): Option<nat> {
    if |u| >= 2 && u[0] == '0' && (u[1] == 'x' || u[1] == 'X') then
      var n := DigitPrefix(u[2..], IsHexDigit);
      if n == 0 then None else Some(HexValue(u[2..][..n]))
    else
      var n := DigitPrefix(u, IsDecimalDigit);
      if n == 0 then None else Some(DecimalValue(u[..n]))
  }

  /** `parseInt(s)` with no radix: leading white space is skipped and one sign is read
      before the unsigned part; no digits gives `NaN`. */
  function ParseInt(s: string): JsNumber {
    var t := s[LeadingWhitespace(s)..];
    var negative := t != [] && t[0] == '-';
    var u := if t != [] && (t[0] == '-' || t[0] == '+') then t[1..] else t;
    match ParseUnsigned(u)
    case None => NaN
    case Some(v) => Num(if negative then -(v as int) else v)
  }

  /** A non-empty run of decimal digits is read whole as a decimal number (its second
      character is a digit, never an `x`). */
  lemma ParseUnsignedDigits(s: string)
    requires s != [] && forall k :: 0 <= k < |s| ==> IsDecimalDigit(s[k])
    ensures ParseUnsigned(s) == Some(DecimalValue(s))
  {
    assert |s| >= 2 ==> s[1] != 'x' && s[1] != 'X';
    assert DigitPrefix(s, IsDecimalDigit) == |s|;
    assert s[..|s|] == s;
  }

  /** `parseInt` of a non-empty string of decimal digits is the number they denote. */
  lemma ParseIntDigits(s: string)
    requires s != [] && forall k :: 0 <= k < |s| ==> IsDecimalDigit(s[k])
    ensures ParseInt(s) == Num(DecimalValue(s))
  {
    assert !IsWhitespace(s[0]);
    assert LeadingWhitespace(s) == 0;
    assert s[0..] == s;
    ParseUnsignedDigits(s);
  }

  /** The decimal digits `toString` writes denote the number written. */
  lemma {:induction false} DecimalStringValue(n: nat)
    ensures DecimalValue(DecimalString(n)) == n
  {
    if n >= 10 {
      var s := DecimalString(n);
      assert s[..|s| - 1] == DecimalString(n / 10);
      DecimalStringValue(n / 10);
    }
  }

  /** `parseInt` reads back what `toString` writes: a round trip for every natural number. */
  lemma ParseIntDecimalString(n: nat)
    ensures ParseInt(DecimalString(n)) == Num(n)
  {
    ParseIntDigits(DecimalString(n));
    DecimalStringValue(n);
  }
}
