/**
 * Character classes and string helpers shared by the Java agent and the Node
 * driver models.  Strings are sequences of Unicode scalar values; where Java
 * and JavaScript disagree about a character class there is one entry for each.
 */
module Text {

  import opened Wrappers

  /** The two notions of "blank" used by the trimming helpers. */
  datatype Blank =
    | JavaBlank  // java.lang.String.trim: every code point <= U+0020
    | JsBlank    // ECMAScript WhiteSpace and LineTerminator, the `\s` class

  predicate IsJsSpace(c: char) {
    c == '\t' || c == '\n' || c == '\U{000B}' || c == '\U{000C}' || c == '\r' || c == ' '
    || c == '\U{00A0}' || c == '\U{1680}' || ('\U{2000}' <= c <= '\U{200A}')
    || c == '\U{2028}' || c == '\U{2029}' || c == '\U{202F}' || c == '\U{205F}'
    || c == '\U{3000}' || c == '\U{FEFF}'
  }

  predicate IsBlank(kind: Blank, c: char) {
    match kind
    case JavaBlank => c <= ' '
    case JsBlank => IsJsSpace(c)
  }

  /** Characters the JavaScript `.` does not match. */
  predicate IsJsLineTerminator(c: char) {
    c == '\n' || c == '\r' || c == '\U{2028}' || c == '\U{2029}'
  }

  /** Characters the java.util.regex `.` does not match (default flags). */
  predicate IsJavaLineTerminator(c: char) {
    c == '\n' || c == '\r' || c == '\U{0085}' || c == '\U{2028}' || c == '\U{2029}'
  }

  predicate IsDigit(c: char) { '0' <= c <= '9' }

  /** The regular-expression `\w` class: ASCII letters, digits and '_'. */
  predicate IsWordChar(c: char) {
    ('a' <= c <= 'z') || ('A' <= c <= 'Z') || IsDigit(c) || c == '_'
  }

  predicate AllDigits(s: string) {
    forall i :: 0 <= i < |s| ==> IsDigit(s[i])
  }

  predicate StartsWith(s: string, prefix: string) {
    |prefix| <= |s| && s[..|prefix|] == prefix
  }

  predicate EndsWith(s: string, suffix: string) {
    |suffix| <= |s| && s[|s| - |suffix|..] == suffix
  }

  lemma SuffixParts(s: string, suffix: string)
    ensures EndsWith(s + suffix, suffix)
  {
    assert (s + suffix)[|s|..] == suffix;
  }

  lemma PrefixParts(prefix: string, s: string)
    ensures StartsWith(prefix + s, prefix) && (prefix + s)[|prefix|..] == s
  {
    assert (prefix + s)[..|prefix|] == prefix;
  }

  /** `part` occurs in `s` starting at index `i`. */
  predicate OccursAt(s: string, part: string, i: nat) {
    i + |part| <= |s| && s[i..i + |part|] == part
  }

  predicate Contains(s: string, part: string) {
    exists i: nat :: i <= |s| && OccursAt(s, part, i)
  }

  /** Drops the leading blanks of `s`. */
  function StripLeading(kind: Blank, s: string): (r: string)
    ensures |r| <= |s| && r == s[|s| - |r|..]
    ensures r == [] || !IsBlank(kind, r[0])
  {
    if s == [] || !IsBlank(kind, s[0]) then s else StripLeading(kind, s[1..])
  }

  /** Everything StripLeading drops is blank. */
  lemma {:induction false} StripLeadingBlanks(kind: Blank, s: string)
    ensures forall k :: 0 <= k < |s| - |StripLeading(kind, s)| ==> IsBlank(kind, s[k])
  {
    if s != [] && IsBlank(kind, s[0]) {
      StripLeadingBlanks(kind, s[1..]);
    }
  }

  /** Drops the trailing blanks of `s`. */
  function StripTrailing(kind: Blank, s: string): (r: string)
    ensures |r| <= |s| && r == s[..|r|]
    ensures r == [] || !IsBlank(kind, r[|r| - 1])
  {
    if s == [] || !IsBlank(kind, s[|s| - 1]) then s else StripTrailing(kind, s[..|s| - 1])
  }

  /** Everything StripTrailing drops is blank. */
  lemma {:induction false} StripTrailingBlanks(kind: Blank, s: string)
    ensures forall k :: |StripTrailing(kind, s)| <= k < |s| ==> IsBlank(kind, s[k])
  {
    if s != [] && IsBlank(kind, s[|s| - 1]) {
      StripTrailingBlanks(kind, s[..|s| - 1]);
    }
  }

  /** Java `trim()` for JavaBlank, JavaScript `trim()` and lodash `_.trim` for JsBlank. */
  function Trim(kind: Blank, s: string): (r: string)
    ensures |r| <= |s|
    ensures r == [] || (!IsBlank(kind, r[0]) && !IsBlank(kind, r[|r| - 1]))
  {
    if s != [] && IsBlank(kind, s[0]) then Trim(kind, s[1..]) else StripTrailing(kind, s)
  }

  /** Trimming is stripping the leading blanks and then the trailing ones. */
  lemma {:induction false} TrimStrips(kind: Blank, s: string)
    ensures Trim(kind, s) == StripTrailing(kind, StripLeading(kind, s))
  {
    if s != [] && IsBlank(kind, s[0]) {
      TrimStrips(kind, s[1..]);
    }
  }

  lemma {:induction false} TrimIdempotent(kind: Blank, s: string)
    ensures Trim(kind, Trim(kind, s)) == Trim(kind, s)
  {
    var r := Trim(kind, s);
    TrimStrips(kind, r);
    if r != [] {
      assert StripLeading(kind, r) == r;
      assert StripTrailing(kind, r) == r;
    }
  }

  /** A string made only of blanks trims to the empty string, and conversely. */
  lemma TrimEmptyIff(kind: Blank, s: string)
    ensures Trim(kind, s) == [] <==> forall k :: 0 <= k < |s| ==> IsBlank(kind, s[k])
  {
    TrimStrips(kind, s);
    var t := StripLeading(kind, s);
    StripLeadingBlanks(kind, s);
    StripTrailingBlanks(kind, t);
  }

  /** The lower-case form of every ASCII capital; other characters are kept. */
  function LowerChar(c: char): char {
    if 'A' <= c <= 'Z' then (c as int + 32) as char else c
  }

  function ToLowerAscii(s: string): (r: string)
    ensures |r| == |s|
    ensures forall i :: 0 <= i < |s| ==> r[i] == LowerChar(s[i])
  {
    if s == [] then [] else [LowerChar(s[0])] + ToLowerAscii(s[1..])
  }

  /** Lower-casing works character by character, so it distributes over concatenation. */
  lemma LowerConcat(a: string, b: string)
    ensures ToLowerAscii(a + b) == ToLowerAscii(a) + ToLowerAscii(b)
  {
    var l := ToLowerAscii(a + b);
    var r := ToLowerAscii(a) + ToLowerAscii(b);
    assert |l| == |r|;
    forall i | 0 <= i < |l|
      ensures l[i] == r[i]
    {
      if i < |a| {
        assert (a + b)[i] == a[i];
      } else {
        assert (a + b)[i] == b[i - |a|];
      }
    }
  }

  /** A string without ASCII capitals is its own lower-case form. */
  lemma LowerNoCapitals(s: string)
    requires forall i :: 0 <= i < |s| ==> !('A' <= s[i] <= 'Z')
    ensures ToLowerAscii(s) == s
  {
  }

  /** Java `equalsIgnoreCase`, for ASCII letters. */
  predicate EqualsIgnoreCase(a: string, b: string) {
    ToLowerAscii(a) == ToLowerAscii(b)
  }

  /** The character of a decimal digit. */
  function DigitChar(d: nat): (c: char)
    requires d < 10
    ensures IsDigit(c) && c as int - '0' as int == d
  {
    ('0' as int + d) as char
  }

  function DigitValue(c: char): (d: nat)
    requires IsDigit(c)
    ensures d < 10 && DigitChar(d) == c
  {
    c as int - '0' as int
  }

  /** Java `Integer.toString` and JavaScript `String` of a non-negative integer. */
  function NatToDecimal(n: nat): (r: string)
    ensures r != [] && AllDigits(r)
    ensures r[0] == '0' ==> n == 0
    decreases n
  {
    if n < 10 then [DigitChar(n)] else NatToDecimal(n / 10) + [DigitChar(n % 10)]
  }

  /** The value of a string of decimal digits. */
  function DecimalValue(s: string): nat
    requires AllDigits(s)
  {
    if s == [] then 0 else 10 * DecimalValue(s[..|s| - 1]) + DigitValue(s[|s| - 1])
  }

  lemma {:induction false} DecimalRoundTrip(n: nat)
    ensures DecimalValue(NatToDecimal(n)) == n
    decreases n
  {
    if n >= 10 {
      var s := NatToDecimal(n);
      assert s[..|s| - 1] == NatToDecimal(n / 10);
      DecimalRoundTrip(n / 10);
    }
  }

  /** Distinct counters print as distinct strings. */
  lemma DecimalInjective(m: nat, n: nat)
    ensures NatToDecimal(m) == NatToDecimal(n) ==> m == n
  {
    if NatToDecimal(m) == NatToDecimal(n) {
      DecimalRoundTrip(m);
      DecimalRoundTrip(n);
    }
  }

  /** `Integer.toString` / `Number.prototype.toString` of any integer. */
  function IntToDecimal(n: int): (r: string)
    ensures n >= 0 ==> r == NatToDecimal(n)
    ensures n < 0 ==> r == "-" + NatToDecimal(-n)
  {
    if n >= 0 then NatToDecimal(n) else "-" + NatToDecimal(-n)
  }

  /** The longest prefix of `s` made of decimal digits. */
  function DigitPrefix(s: string): (r: string)
    ensures |r| <= |s| && r == s[..|r|] && AllDigits(r)
    ensures |r| < |s| ==> !IsDigit(s[|r|])
  {
    if s == [] || !IsDigit(s[0]) then [] else [s[0]] + DigitPrefix(s[1..])
  }

  /** A run of digits followed by anything but a digit is the digit prefix. */
  lemma {:induction false} DigitPrefixOfDigits(s: string, rest: string)
    requires AllDigits(s) && (rest == [] || !IsDigit(rest[0]))
    ensures DigitPrefix(s + rest) == s
  {
    if s != [] {
      assert (s + rest)[1..] == s[1..] + rest;
      DigitPrefixOfDigits(s[1..], rest);
    } else {
      assert s + rest == rest;
    }
  }

  /**
   * JavaScript `parseInt(s, 10)`: leading white space, an optional sign and the
   * longest run of digits; `None` stands for NaN.
   */
  function ParseIntPrefix(s: string): (r: Option<int>)
    ensures r.Some? <==> (var t := StripLeading(JsBlank, s);
                          var u := if t != [] && (t[0] == '-' || t[0] == '+') then t[1..] else t;
                          u != [] && IsDigit(u[0]))
  {
    var t := StripLeading(JsBlank, s);
    var negative := t != [] && t[0] == '-';
    var u := if t != [] && (t[0] == '-' || t[0] == '+') then t[1..] else t;
    var digits := DigitPrefix(u);
    if digits == [] then None
    else if negative then Some(-(DecimalValue(digits) as int))
    else Some(DecimalValue(digits))
  }

  /** Replaces every character satisfying `p` with `rep`. */
  function ReplaceEach(s: string, p: char -> bool, rep: string): (r: string)
    ensures forall c :: c in r ==> (c in s && !p(c)) || c in rep
    ensures (forall i :: 0 <= i < |s| ==> !p(s[i])) ==> r == s
  {
    if s == [] then []
    else (if p(s[0]) then rep else [s[0]]) + ReplaceEach(s[1..], p, rep)
  }

  /** JavaScript `s.split(sep)` for a one-character separator: the pieces between separators. */
  function SplitOn(s: string, sep: char): (r: seq<string>)
    ensures |r| >= 1
    ensures forall i :: 0 <= i < |r| ==> sep !in r[i]
  {
    if s == [] then [[]]
    else if s[0] == sep then [[]] + SplitOn(s[1..], sep)
    else var rest := SplitOn(s[1..], sep); [[s[0]] + rest[0]] + rest[1..]
  }

  /** JavaScript `parts.join(sep)`. */
  function JoinWith(parts: seq<string>, sep: char): string
  {
    if parts == [] then []
    else if |parts| == 1 then parts[0]
    else parts[0] + [sep] + JoinWith(parts[1..], sep)
  }

  /** Joining the pieces again gives back the string that was split. */
  lemma {:induction false} SplitJoin(s: string, sep: char)
    ensures JoinWith(SplitOn(s, sep), sep) == s
  {
    if s != [] {
      SplitJoin(s[1..], sep);
      if s[0] != sep {
        var rest := SplitOn(s[1..], sep);
        if |rest| == 1 {
          assert s == [s[0]] + rest[0];
        } else {
          assert rest == [rest[0]] + rest[1..];
          assert JoinWith(rest, sep) == rest[0] + [sep] + JoinWith(rest[1..], sep);
          assert s == ([s[0]] + rest[0]) + [sep] + JoinWith(rest[1..], sep);
        }
      }
    }
  }

  /** A piece without the separator splits into itself. */
  lemma {:induction false} SplitOnNone(s: string, sep: char)
    requires sep !in s
    ensures SplitOn(s, sep) == [s]
  {
    if s != [] {
      SplitOnNone(s[1..], sep);
      assert [s[0]] + s[1..] == s;
    }
  }

  /** The text before the first separator is the first piece; the rest splits on its own. */
  lemma {:induction false} SplitOnFirst(p: string, sep: char, q: string)
    requires sep !in p
    ensures SplitOn(p + [sep] + q, sep) == [p] + SplitOn(q, sep)
  {
    if p == [] {
      assert p + [sep] + q == [sep] + q;
      assert ([sep] + q)[1..] == q;
    } else {
      assert (p + [sep] + q)[1..] == p[1..] + [sep] + q;
      SplitOnFirst(p[1..], sep, q);
      assert [p[0]] + p[1..] == p;
    }
  }
}
