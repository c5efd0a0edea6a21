/** The JavaScript string and number operations the bot's code relies on,
    written out over `string` (a sequence of Unicode scalar values). */
module JsText {

  predicate IsDigit(c: char) {
    '0' <= c <= '9'
  }

  /** `\w` in a regular expression: ASCII letters, digits and underscore. */
  predicate IsWordChar(c: char) {
    IsDigit(c) || 'a' <= c <= 'z' || 'A' <= c <= 'Z' || c == '_'
  }

  predicate AllDigits(s: string) {
    forall i :: 0 <= i < |s| ==> IsDigit(s[i])
  }

  predicate AllWordChars(s: string) {
    forall i :: 0 <= i < |s| ==> IsWordChar(s[i])
  }

  function DigitChar(d: nat): (c: char)
    requires d < 10
    ensures IsDigit(c)
  {
    ('0' as int + d) as char
  }

  function DigitValue(c: char): (d: nat)
    requires IsDigit(c)
    ensures d < 10 && DigitChar(d) == c
  {
    c as int - '0' as int
  }

  /** `String(n)` for a non-negative integer: its decimal digits, no leading zero. */
  function NatToString(n: nat): (s: string)
    ensures 1 <= |s| && AllDigits(s)
    ensures |s| == 1 <==> n < 10
    ensures s[0] != '0' || n == 0
  {
    if n < 10 then [DigitChar(n)] else NatToString(n / 10) + [DigitChar(n % 10)]
  }

  /** `String(i)` for an integer; `-0` never arises here because the model has no signed zero. */
  function IntToString(i: int): (s: string)
    ensures 1 <= |s|
    ensures i >= 0 <==> s[0] != '-'
  {
    if i < 0 then "-" + NatToString(-i) else NatToString(i)
  }

  /** The number a string of decimal digits denotes. */
  function DigitsValue(s: string): nat
    requires AllDigits(s)
  {
    if s == [] then 0 else DigitsValue(s[..|s| - 1]) * 10 + DigitValue(s[|s| - 1])
  }

  lemma {:induction false} NatToStringRoundTrip(n: nat)
    ensures DigitsValue(NatToString(n)) == n
  {
    if n >= 10 {
      var s := NatToString(n);
      assert s[..|s| - 1] == NatToString(n / 10);
      NatToStringRoundTrip(n / 10);
    }
  }

  /** The result of `parseInt` on a string: a non-negative integer or `NaN`. */
  datatype ParsedInt = Finite(n: nat) | NotANumber

  /** The longest prefix of `s` made of decimal digits. */
  function LeadingDigits(s: string): (d: string)
    ensures AllDigits(d) && d <= s
    ensures |d| < |s| ==> !IsDigit(s[|d|])
  {
    if s == [] || !IsDigit(s[0]) then [] else [s[0]] + LeadingDigits(s[1..])
  }

  /** `parseInt(s)` for strings that start neither with a sign, with white
      space, nor with a `0x`/`0X` hex prefix: the value of the leading run of
      decimal digits, `NaN` when there is none. */
  function ParseInt(s: string): (r: ParsedInt)
    ensures r.NotANumber? <==> (s == [] || !IsDigit(s[0]))
  {
    var d := LeadingDigits(s);
    if d == [] then NotANumber else Finite(DigitsValue(d))
  }

  lemma {:induction false} LeadingDigitsOfDigits(s: string, rest: string)
    requires AllDigits(s)
    requires rest == [] || !IsDigit(rest[0])
    ensures LeadingDigits(s + rest) == s
  {
    if s != [] {
      assert (s + rest)[1..] == s[1..] + rest;
      LeadingDigitsOfDigits(s[1..], rest);
    }
  }

  /** `parseInt` reads back what `String` wrote. */
  lemma ParseIntOfNatToString(n: nat)
    ensures ParseInt(NatToString(n)) == Finite(n)
  {
    LeadingDigitsOfDigits(NatToString(n), []);
    assert NatToString(n) + [] == NatToString(n);
    NatToStringRoundTrip(n);
  }

  /** `s.substr(start, length)` for non-negative arguments. */
  function Substr(s: string, start: nat, length: nat): (r: string)
    ensures |r| <= length
    ensures start + length <= |s| ==> r == s[start..start + length]
  {
    var from := if start <= |s| then start else |s|;
    var to := if start + length <= |s| then start + length else |s|;
    s[from..to]
  }

  /** `substr` clips a range that runs past the end: from `start` to the
      end of the string, or nothing when `start` is already past it. */
  lemma SubstrClipped(s: string, start: nat, length: nat)
    requires |s| < start + length
    ensures start <= |s| ==> Substr(s, start, length) == s[start..]
    ensures |s| < start ==> Substr(s, start, length) == []
  {
  }

  /** `s.substr(-k)`: the last `k` characters, or all of `s` when it is shorter. */
  function SubstrFromEnd(s: string, k: nat): (r: string)
    ensures |r| == if |s| < k then |s| else k
    ensures r == s[|s| - |r|..]
  {
    if |s| <= k then s else s[|s| - k..]
  }

  /** `s.substr(0, s.length - 1)`: `s` without its last character. The model
      uses it only on strings whose last character is `'\n'`, one UTF-16 code
      unit, so dropping one character and dropping one code unit agree. */
  function DropLast(s: string): (r: string)
    ensures s != [] ==> r + [s[|s| - 1]] == s
    ensures s == [] ==> r == []
  {
    if s == [] then [] else s[..|s| - 1]
  }

  /** `Math.round(x)`: the nearest integer, halves rounded up. */
  function Round(x: real): (n: int)
    ensures x - 0.5 < n as real <= x + 0.5
  {
    (x + 0.5).Floor
  }

  /** The number of UTF-16 code units of `s`, which is what JavaScript's
      `.length` counts: a character outside the Basic Multilingual Plane
      (an emoji such as U+1F4A8) takes two. */
  function Utf16Length(s: string): (n: nat)
    ensures |s| <= n <= 2 * |s|
  {
    if s == [] then 0 else Utf16Length(s[..|s| - 1]) + (if s[|s| - 1] as int >= 0x1_0000 then 2 else 1)
  }

  lemma {:induction false} Utf16LengthConcat(a: string, b: string)
    ensures Utf16Length(a + b) == Utf16Length(a) + Utf16Length(b)
  {
    if b == [] {
      assert a + b == a;
    } else {
      assert (a + b)[..|a + b| - 1] == a + b[..|b| - 1];
      Utf16LengthConcat(a, b[..|b| - 1]);
    }
  }

  /** Lines each preceded by a newline: `"\n" + l0 + "\n" + l1 + ...`. */
  function PrefixJoin(lines: seq<string>): (s: string)
  {
    if lines == [] then [] else PrefixJoin(lines[..|lines| - 1]) + "\n" + lines[|lines| - 1]
  }

  /** Lines each followed by a newline: `l0 + "\n" + l1 + "\n" + ...`. */
  function SuffixJoin(lines: seq<string>): (s: string)
  {
    if lines == [] then [] else SuffixJoin(lines[..|lines| - 1]) + lines[|lines| - 1] + "\n"
  }

  /** Writing each line with a trailing newline and then dropping the last
      character gives the same text as writing each line after a newline. */
  lemma {:induction false} SuffixJoinThenDropLast(header: string, lines: seq<string>)
    ensures DropLast(header + "\n" + SuffixJoin(lines)) == header + PrefixJoin(lines)
  {
    PrefixSuffixShift(lines);
    calc {
      header + "\n" + SuffixJoin(lines);
      header + ("\n" + SuffixJoin(lines));
      header + (PrefixJoin(lines) + "\n");
      (header + PrefixJoin(lines)) + "\n";
    }
  }

  lemma {:induction false} PrefixSuffixShift(lines: seq<string>)
    ensures "\n" + SuffixJoin(lines) == PrefixJoin(lines) + "\n"
  {
    if lines != [] {
      var init, last := lines[..|lines| - 1], lines[|lines| - 1];
      PrefixSuffixShift(init);
      calc {
        "\n" + SuffixJoin(lines);
        "\n" + (SuffixJoin(init) + last + "\n");
        ("\n" + SuffixJoin(init)) + last + "\n";
        (PrefixJoin(init) + "\n") + last + "\n";
        PrefixJoin(lines) + "\n";
      }
    }
  }

  /** `s.replace(c, rep)` with a one-character search string: only the first
      occurrence is replaced (see `ReplaceFirstAt`). */
  function ReplaceFirst(s: string, c: char, rep: string): (r: string)
    ensures c !in s ==> r == s
  {
    if s == [] then s
    else if s[0] == c then rep + s[1..]
    else [s[0]] + ReplaceFirst(s[1..], c, rep)
  }

  /** The text before the first `c`, then `rep`, then all the text after
      that `c`, later occurrences included. */
  lemma {:induction false} ReplaceFirstAt(before: string, c: char, after: string, rep: string)
    requires c !in before
    ensures ReplaceFirst(before + [c] + after, c, rep) == before + rep + after
  {
    var s := before + [c] + after;
    if before == [] {
      assert s[1..] == after;
    } else {
      assert s[0] == before[0] && s[0] != c;
      assert s[1..] == before[1..] + [c] + after;
      ReplaceFirstAt(before[1..], c, after, rep);
      assert [before[0]] + (before[1..] + rep + after) == before + rep + after;
    }
  }

  lemma AppendAssoc(a: string, b: string, c: string)
    ensures a + b + c == a + (b + c)
  {
  }

  /** The TypeError message V8 gives when a property is read from
      `undefined` or `null` (`receiver`). */
  function PropertyReadError(receiver: string, key: string): string {
    "Cannot read properties of " + receiver + " (reading '" + key + "')"
  }
}
