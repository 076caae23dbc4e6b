/** The string operations of the Kotlin and JavaScript standard libraries
    that the modelled code relies on: `startsWith`, `includes`, `trim`,
    `trim('"')`, `joinToString`, `toIntOrNull` and `Int.toString`. */
module Text {
  import opened Wrappers

  /** `s.startsWith(prefix)` */
  predicate StartsWith(s: string, prefix: string) {
    |prefix| <= |s| && s[..|prefix|] == prefix
  }

  /** `s.includes(sub)` (JavaScript) or `sub in s` (Kotlin): `sub` occurs in `s`. */
  predicate Contains(s: string, sub: string) {
    exists i | 0 <= i <= |s| - |sub| :: OccursAt(s, sub, i)
  }

  /** `sub` occurs in `s` starting at index `i`. */
  predicate OccursAt(s: string, sub: string, i: int) {
    0 <= i <= |s| - |sub| && s[i..i + |sub|] == sub
  }

  // ------------------------------------------------------------------
  // Trimming
  // ------------------------------------------------------------------

  /** Where the part `TrimWith(s, p)` keeps starts: after the longest
      prefix whose characters all satisfy `p`. */
  function TrimOffset(s: string, p: char -> bool): (i: nat)
    ensures i <= |s|
    ensures forall k | 0 <= k < i :: p(s[k])
    ensures i == |s| || !p(s[i])
  {
    if |s| > 0 && p(s[0]) then 1 + TrimOffset(s[1..], p) else 0
  }

  /** Where the part `TrimWith(s, p)` keeps ends: before the longest suffix
      whose characters all satisfy `p`, but not before `from`. */
  function TrimEnd(s: string, p: char -> bool, from: nat): (j: nat)
    requires from <= |s|
    ensures from <= j <= |s|
    ensures forall k | j <= k < |s| :: p(s[k])
    ensures j == from || !p(s[j - 1])
    decreases |s|
  {
    if |s| > from && p(s[|s| - 1]) then TrimEnd(s[..|s| - 1], p, from) else |s|
  }

  /** Kotlin's `s.trim(predicate)`: the slice of `s` left once every
      character satisfying `p` is removed from both ends. */
  function TrimWith(s: string, p: char -> bool): (r: string)
    ensures r == [] || (!p(r[0]) && !p(r[|r| - 1]))
    ensures TrimOffset(s, p) + |r| <= |s|
    ensures r == s[TrimOffset(s, p)..TrimOffset(s, p) + |r|]
    ensures forall k | 0 <= k < TrimOffset(s, p) :: p(s[k])
    ensures forall k | TrimOffset(s, p) + |r| <= k < |s| :: p(s[k])
  {
    s[TrimOffset(s, p)..TrimEnd(s, p, TrimOffset(s, p))]
  }

  /** `TrimWith` keeps the only slice `s[i..j]` that has everything before
      and after it satisfying `p` and is empty or has no such character at
      either end. */
  lemma TrimWithUnique(s: string, p: char -> bool, i: nat, j: nat)
    requires i <= j <= |s|
    requires forall k | 0 <= k < i :: p(s[k])
    requires forall k | j <= k < |s| :: p(s[k])
    requires i == j || (!p(s[i]) && !p(s[j - 1]))
    ensures TrimWith(s, p) == s[i..j]
  {
    var a := TrimOffset(s, p);
    var b := TrimEnd(s, p, a);
    if i == j {
      assert a == |s|;
    } else {
      assert a == i;
      assert b == j;
    }
  }

  /** A leading character satisfying `p` is trimmed away. */
  lemma TrimWithFront(s: string, p: char -> bool)
    requires |s| > 0 && p(s[0])
    ensures TrimWith(s, p) == TrimWith(s[1..], p)
  {
    var t := s[1..];
    var r := TrimWith(t, p);
    var i := TrimOffset(t, p);
    assert forall k | 0 < k < |s| :: s[k] == t[k - 1];
    TrimWithUnique(s, p, i + 1, i + 1 + |r|);
    assert s[i + 1..i + 1 + |r|] == t[i..i + |r|];
  }

  /** With nothing to trim in front, a trailing character satisfying `p`
      is trimmed away. */
  lemma TrimWithBack(s: string, p: char -> bool)
    requires |s| > 0 && !p(s[0]) && p(s[|s| - 1])
    ensures TrimWith(s, p) == TrimWith(s[..|s| - 1], p)
  {
    var t := s[..|s| - 1];
    var r := TrimWith(t, p);
    var i := TrimOffset(t, p);
    assert forall k | 0 <= k < |t| :: s[k] == t[k];
    TrimWithUnique(s, p, i, i + |r|);
    assert s[i..i + |r|] == t[i..i + |r|];
  }

  /** Kotlin's `Char.isWhitespace()` on the JVM: `Character.isWhitespace`
      (the ASCII controls TAB to CR and FS to US, and the separators other
      than the no-break spaces) together with `Character.isSpaceChar` (every
      space separator, no-break spaces included, and the line and paragraph
      separators). */
  predicate IsWhitespace(c: char) {
    || ('\t' <= c <= '\r')
    || ('\U{001C}' <= c <= ' ')
    || c == '\U{00A0}'
    || c == '\U{1680}'
    || ('\U{2000}' <= c <= '\U{200A}')
    || c == '\U{2028}' || c == '\U{2029}'
    || c == '\U{202F}' || c == '\U{205F}' || c == '\U{3000}'
  }

  /** True when `s` has no whitespace at either end, as every result of `Trim` has. */
  predicate IsTrimmed(s: string) {
    s == [] || (!IsWhitespace(s[0]) && !IsWhitespace(s[|s| - 1]))
  }

  /** Kotlin's `s.trim()`: whitespace removed from both ends, one
      character at a time. */
  function Trim(s: string): (r: string)
    ensures IsTrimmed(r)
    ensures |r| <= |s|
    decreases |s|
  {
    if |s| > 0 && IsWhitespace(s[0]) then Trim(s[1..])
    else if |s| > 0 && IsWhitespace(s[|s| - 1]) then Trim(s[..|s| - 1])
    else s
  }

  /** `trim()` is `trim(Char::isWhitespace)`: the slice between the
      whitespace prefix and the whitespace suffix. */
  lemma {:induction false} TrimIsTrimWith(s: string)
    ensures Trim(s) == TrimWith(s, IsWhitespace)
    decreases |s|
  {
    if |s| > 0 && IsWhitespace(s[0]) {
      TrimIsTrimWith(s[1..]);
      TrimWithFront(s, IsWhitespace);
    } else if |s| > 0 && IsWhitespace(s[|s| - 1]) {
      TrimIsTrimWith(s[..|s| - 1]);
      TrimWithBack(s, IsWhitespace);
    } else {
      TrimWithUnique(s, IsWhitespace, 0, |s|);
    }
  }

  /** Trimming a string with no whitespace at its ends gives it back. */
  lemma TrimOfTrimmed(s: string)
    requires IsTrimmed(s)
    ensures Trim(s) == s
  {
  }

  /** A space in front of a trimmed string is trimmed away. */
  lemma TrimAfterSpace(s: string)
    requires IsTrimmed(s)
    ensures Trim(" " + s) == s
  {
    assert (" " + s)[1..] == s;
  }

  // ------------------------------------------------------------------
  // joinToString and its inverse
  // ------------------------------------------------------------------

  /** `parts.joinToString(sep)`, JavaScript's `parts.join(sep)`. */
  function Join(parts: seq<string>, sep: string): string {
    if |parts| == 0 then ""
    else if |parts| == 1 then parts[0]
    else parts[0] + sep + Join(parts[1..], sep)
  }

  /** `s.split(sep)`: the pieces between occurrences of `sep`, in order. */
  function Split(s: string, sep: char): (r: seq<string>)
    ensures |r| >= 1
  {
    if |s| == 0 then [""]
    else
      var rest := Split(s[1..], sep);
      if s[0] == sep then [""] + rest else [[s[0]] + rest[0]] + rest[1..]
  }

  lemma {:induction false} SplitWithoutSeparator(a: string, c: char)
    requires c !in a
    ensures Split(a, c) == [a]
  {
    if |a| > 0 {
      SplitWithoutSeparator(a[1..], c);
      assert [a[0]] + a[1..] == a;
    }
  }

  lemma {:induction false} SplitAfterFirst(a: string, b: string, c: char)
    requires c !in a
    ensures Split(a + [c] + b, c) == [a] + Split(b, c)
  {
    if |a| == 0 {
      assert a + [c] + b == [c] + b;
      assert ([c] + b)[1..] == b;
    } else {
      SplitAfterFirst(a[1..], b, c);
      assert (a + [c] + b)[1..] == a[1..] + [c] + b;
      assert [a[0]] + a[1..] == a;
    }
  }

  /** Joining pieces that do not contain the separator, then splitting,
      gives the pieces back: a joined listing can be read line by line. */
  lemma {:induction false} SplitJoin(parts: seq<string>, c: char)
    requires |parts| >= 1
    requires forall i | 0 <= i < |parts| :: c !in parts[i]
    ensures Split(Join(parts, [c]), c) == parts
  {
    if |parts| == 1 {
      SplitWithoutSeparator(parts[0], c);
    } else {
      SplitJoin(parts[1..], c);
      SplitAfterFirst(parts[0], Join(parts[1..], [c]), c);
      assert [parts[0]] + parts[1..] == parts;
    }
  }

  // ------------------------------------------------------------------
  // Kotlin Int parsing and printing
  // ------------------------------------------------------------------

  const IntMin: int := -0x8000_0000
  const IntMax: int := 0x7fff_ffff

  /** A value of Kotlin's 32-bit `Int`. */
  predicate IsInt32(n: int) {
    IntMin <= n <= IntMax
  }

  predicate IsDigit(c: char) {
    '0' <= c <= '9'
  }

  predicate AllDigits(s: string) {
    forall k | 0 <= k < |s| :: IsDigit(s[k])
  }

  /** The value of a string of decimal digits, read most significant first. */
  function DigitsValue(s: string): nat
    requires AllDigits(s)
  {
    if |s| == 0 then 0
    else DigitsValue(s[..|s| - 1]) * 10 + (s[|s| - 1] as int - '0' as int)
  }

  /** Kotlin's `String.toIntOrNull()` (radix 10): an optional `-` or `+`,
      then one or more digits, and a value that fits in an `Int`;
      `null` for anything else. */
  function ToIntOrNull(s: string): (r: Option<int>)
    ensures r.Some? ==> IsInt32(r.value)
    ensures r.Some? ==> |s| >= 1 && (AllDigits(s) || (|s| >= 2 && s[0] in {'-', '+'} && AllDigits(s[1..])))
  {
    if |s| == 0 then None
    else if s[0] < '0' then
      if |s| == 1 then None
      else if s[0] == '-' && AllDigits(s[1..]) && IsInt32(0 - DigitsValue(s[1..])) then Some(0 - DigitsValue(s[1..]))
      else if s[0] == '+' && AllDigits(s[1..]) && IsInt32(DigitsValue(s[1..])) then Some(DigitsValue(s[1..]))
      else None
    else if AllDigits(s) && IsInt32(DigitsValue(s)) then Some(DigitsValue(s))
    else None
  }

  function DigitChar(d: nat): char
    requires d < 10
  {
    ('0' as int + d) as char
  }

  /** The decimal digits of `n`, without leading zeros. */
  function NatToString(n: nat): string {
    if n < 10 then [DigitChar(n)] else NatToString(n / 10) + [DigitChar(n % 10)]
  }

  /** Kotlin's `Int.toString()`. */
  function IntToString(n: int): string {
    if n < 0 then "-" + NatToString(-n) else NatToString(n)
  }

  lemma {:induction false} NatToStringDigits(n: nat)
    ensures |NatToString(n)| >= 1
    ensures AllDigits(NatToString(n))
    ensures DigitsValue(NatToString(n)) == n
  {
    var s := NatToString(n);
    if n >= 10 {
      NatToStringDigits(n / 10);
      assert s[..|s| - 1] == NatToString(n / 10);
    }
  }

  /** Printing an `Int` and parsing it back gives the same `Int`. */
  lemma IntToStringRoundTrip(n: int)
    requires IsInt32(n)
    ensures ToIntOrNull(IntToString(n)) == Some(n)
  {
    if n < 0 {
      NatToStringDigits(-n);
      assert IntToString(n)[1..] == NatToString(-n);
    } else {
      NatToStringDigits(n);
    }
  }
}
