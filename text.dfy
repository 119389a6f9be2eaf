/** The string operations the handlers rely on: `str.lower()`, `str.upper()`,
    `in` on strings, `str.startswith`, `str.join`, `str.strip()`/`rstrip()`
    and `str(int)`. Strings are sequences of Unicode scalar values, as in
    Python 3. */
module Text {

  /** ASCII case mapping. Python lowers every Unicode letter; for the ASCII
      keywords and phrases this model searches for the two notions agree,
      because the only non-ASCII characters that lower into ASCII letters are
      U+212A KELVIN SIGN (to 'k', which no searched text contains) and U+0130
      (to 'i' followed by a combining dot, which breaks any match). */
  function LowerChar(c: char): char {
    if 'A' <= c <= 'Z' then (c as int + 32) as char else c
  }

  function UpperChar(c: char): char {
    if 'a' <= c <= 'z' then (c as int - 32) as char else c
  }

  function Lower(s: string): (r: string)
    ensures |r| == |s|
  {
    seq(|s|, i requires 0 <= i < |s| => LowerChar(s[i]))
  }

  function Upper(s: string): (r: string)
    ensures |r| == |s|
  {
    seq(|s|, i requires 0 <= i < |s| => UpperChar(s[i]))
  }

  lemma LowerAppend(a: string, b: string)
    ensures Lower(a + b) == Lower(a) + Lower(b)
  {
    assert forall i | 0 <= i < |a + b| :: Lower(a + b)[i] == (Lower(a) + Lower(b))[i];
  }

  predicate NoUpper(s: string) {
    forall i :: 0 <= i < |s| ==> !('A' <= s[i] <= 'Z')
  }

  lemma LowerOfNoUpper(s: string)
    requires NoUpper(s)
    ensures Lower(s) == s
  {
  }

  lemma NoUpperAppend(a: string, b: string)
    requires NoUpper(a) && NoUpper(b)
    ensures NoUpper(a + b)
  {
    forall i | 0 <= i < |a + b| ensures !('A' <= (a + b)[i] <= 'Z') {
      if i >= |a| { assert (a + b)[i] == b[i - |a|]; }
    }
  }

  predicate StartsWith(s: string, prefix: string) {
    |prefix| <= |s| && s[..|prefix|] == prefix
  }

  predicate OccursAt(s: string, needle: string, i: int) {
    0 <= i && i + |needle| <= |s| && s[i..i + |needle|] == needle
  }

  /** Python's `needle in s` for strings. */
  predicate Contains(s: string, needle: string) {
    exists i | 0 <= i <= |s| :: OccursAt(s, needle, i)
  }

  lemma ContainsInSuffix(a: string, b: string, needle: string)
    requires Contains(b, needle)
    ensures Contains(a + b, needle)
  {
    var i: int :| 0 <= i <= |b| && OccursAt(b, needle, i);
    assert (a + b)[|a| + i..|a| + i + |needle|] == b[i..i + |needle|];
    assert OccursAt(a + b, needle, |a| + i);
  }

  lemma ContainsInPrefix(a: string, b: string, needle: string)
    requires Contains(a, needle)
    ensures Contains(a + b, needle)
  {
    var i: int :| 0 <= i <= |a| && OccursAt(a, needle, i);
    assert (a + b)[i..i + |needle|] == a[i..i + |needle|];
    assert OccursAt(a + b, needle, i);
  }

  lemma ContainsTransitive(s: string, part: string, needle: string)
    requires Contains(s, part) && Contains(part, needle)
    ensures Contains(s, needle)
  {
    var i: int :| 0 <= i <= |s| && OccursAt(s, part, i);
    var j: int :| 0 <= j <= |part| && OccursAt(part, needle, j);
    forall k | 0 <= k < |needle| ensures s[i + j + k] == needle[k] {
      assert needle[k] == part[j + k] == s[i + j + k];
    }
    assert s[i + j..i + j + |needle|] == needle;
    assert OccursAt(s, needle, i + j);
  }

  lemma ContainsItself(s: string)
    ensures Contains(s, s)
  {
    assert OccursAt(s, s, 0);
  }

  /** `sep.join(parts)`. */
  function Join(sep: string, parts: seq<string>): string {
    if |parts| == 0 then ""
    else if |parts| == 1 then parts[0]
    else parts[0] + sep + Join(sep, parts[1..])
  }

  /** Every part of a join occurs in the joined text. */
  lemma {:induction false} JoinContainsPart(sep: string, parts: seq<string>, k: nat)
    requires k < |parts|
    ensures Contains(Join(sep, parts), parts[k])
    decreases |parts|
  {
    if |parts| == 1 {
      ContainsItself(parts[0]);
    } else if k == 0 {
      ContainsItself(parts[0]);
      ContainsInPrefix(parts[0], sep + Join(sep, parts[1..]), parts[0]);
      assert parts[0] + sep + Join(sep, parts[1..]) == parts[0] + (sep + Join(sep, parts[1..]));
    } else {
      JoinContainsPart(sep, parts[1..], k - 1);
      ContainsInSuffix(parts[0] + sep, Join(sep, parts[1..]), parts[k]);
    }
  }

  /** The characters for which Python's `str.isspace()` holds. */
  predicate IsSpace(c: char) {
    var n := c as int;
    || (0x09 <= n <= 0x0D) || (0x1C <= n <= 0x20)
    || n == 0x85 || n == 0xA0 || n == 0x1680
    || (0x2000 <= n <= 0x200A)
    || n == 0x2028 || n == 0x2029 || n == 0x202F || n == 0x205F || n == 0x3000
  }

  /** Number of whitespace characters at the start of `s`. */
  function LeadingSpaces(s: string): (k: nat)
    ensures k <= |s|
    ensures forall i :: 0 <= i < k ==> IsSpace(s[i])
    ensures k < |s| ==> !IsSpace(s[k])
  {
    if s == [] || !IsSpace(s[0]) then 0 else 1 + LeadingSpaces(s[1..])
  }

  /** Number of whitespace characters at the end of `s`. */
  function TrailingSpaces(s: string): (k: nat)
    ensures k <= |s|
    ensures forall i :: |s| - k <= i < |s| ==> IsSpace(s[i])
    ensures k < |s| ==> !IsSpace(s[|s| - k - 1])
  {
    if s == [] || !IsSpace(s[|s| - 1]) then 0 else 1 + TrailingSpaces(s[..|s| - 1])
  }

  /** `s.rstrip()`. */
  function RStrip(s: string): (r: string)
    ensures r == s[..|s| - TrailingSpaces(s)]
    ensures r != [] ==> !IsSpace(r[|r| - 1])
  {
    s[..|s| - TrailingSpaces(s)]
  }

  /** `s.strip()`: the longest slice of `s` that neither starts nor ends
      with whitespace; only whitespace is removed. */
  function Strip(s: string): (r: string)
    ensures exists i, j ::
              && 0 <= i <= j <= |s| && r == s[i..j]
              && (forall k :: 0 <= k < i ==> IsSpace(s[k]))
              && (forall k :: j <= k < |s| ==> IsSpace(s[k]))
    ensures r != [] ==> !IsSpace(r[0]) && !IsSpace(r[|r| - 1])
    ensures r == [] <==> forall k :: 0 <= k < |s| ==> IsSpace(s[k])
  {
    var i := LeadingSpaces(s);
    var r := RStrip(s[i..]);
    assert r == s[i..i + |r|];
    r
  }

  /** `s.rstrip()` leaves a stripped string as it is. */
  lemma RStripOfStripped(s: string)
    ensures RStrip(Strip(s)) == Strip(s)
  {
    var r := Strip(s);
    if r != [] {
      assert TrailingSpaces(r) == 0;
    }
  }

  function DigitChar(d: nat): char
    requires d < 10
  {
    ('0' as int + d) as char
  }

  /** `str(n)` for a natural number. */
  function NatToString(n: nat): (r: string)
    ensures |r| >= 1
    ensures forall i :: 0 <= i < |r| ==> '0' <= r[i] <= '9'
  {
    if n < 10 then [DigitChar(n)] else NatToString(n / 10) + [DigitChar(n % 10)]
  }

  /** `str(i)` for a Python int. */
  function IntToString(i: int): (r: string)
    ensures r != []
  {
    if i < 0 then "-" + NatToString(-i) else NatToString(i)
  }
}
