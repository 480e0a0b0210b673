/** The JavaScript string operations the search code relies on, over Dafny
    strings. A Dafny `char` is a Unicode scalar value; where JavaScript counts
    UTF-16 code units (`length`, `substring`) the count is written out. */
module Strings {

  function Min(a: int, b: int): int { if a <= b then a else b }

  /** `s.slice(0, n)`. */
  function Take<T>(s: seq<T>, n: nat): seq<T> {
    s[..Min(n, |s|)]
  }

  predicate IsPrefix(p: string, s: string) {
    |p| <= |s| && s[..|p|] == p
  }

  predicate IsSuffix(p: string, s: string) {
    |p| <= |s| && s[|s| - |p|..] == p
  }

  /** `k` occurs in `s` starting at index `i`. */
  predicate OccursAt(s: string, k: string, i: int) {
    0 <= i && i + |k| <= |s| && s[i..i + |k|] == k
  }

  /** Concatenation is associative; stated once so that long texts built by
      successive appends need not be compared character by character. */
  lemma AppendAssoc(a: string, b: string, c: string)
    ensures a + b + c == a + (b + c)
  {
  }

  lemma PrefixOfAppend(a: string, b: string)
    ensures IsPrefix(a, a + b)
  {
    assert (a + b)[..|a|] == a;
  }

  lemma SuffixOfAppend(a: string, b: string)
    ensures IsSuffix(b, a + b)
  {
    assert (a + b)[|a|..] == b;
  }

  /** `s.includes(k)`. */
  predicate Contains(s: string, k: string) {
    exists i :: 0 <= i <= |s| - |k| && OccursAt(s, k, i)
  }

  /** `ks.some(k => s.includes(k))`. */
  predicate ContainsAny(s: string, ks: seq<string>) {
    exists j :: 0 <= j < |ks| && Contains(s, ks[j])
  }

  // ---------------------------------------------------------------------------
  // Case and white space

  /** Lower-casing of the ASCII letters; every other character is kept. */
  function LowerChar(c: char): char {
    if 'A' <= c <= 'Z' then (c as int + 32) as char else c
  }

  function Lower(s: string): string {
    seq(|s|, i requires 0 <= i < |s| => LowerChar(s[i]))
  }

  /** The characters `String.prototype.trim` removes and the regular
      expression class `\s` matches: the WhiteSpace and LineTerminator code
      points of ECMAScript. */
  predicate IsJsSpace(c: char) {
    var n := c as int;
    n == 0x09 || n == 0x0A || n == 0x0B || n == 0x0C || n == 0x0D || n == 0x20 ||
    n == 0xA0 || n == 0x1680 || (0x2000 <= n <= 0x200A) || n == 0x2028 || n == 0x2029 ||
    n == 0x202F || n == 0x205F || n == 0x3000 || n == 0xFEFF
  }

  /** Index of the first character of `s` that is not white space. */
  function ContentStart(s: string): (a: nat)
    ensures a <= |s|
    ensures forall i :: 0 <= i < a ==> IsJsSpace(s[i])
    ensures a < |s| ==> !IsJsSpace(s[a])
  {
    if |s| == 0 || !IsJsSpace(s[0]) then 0 else 1 + ContentStart(s[1..])
  }

  /** Index just after the last character of `s` that is not white space. */
  function ContentEnd(s: string): (b: nat)
    ensures b <= |s|
    ensures forall i :: b <= i < |s| ==> IsJsSpace(s[i])
    ensures b > 0 ==> !IsJsSpace(s[b - 1])
  {
    if |s| == 0 || !IsJsSpace(s[|s| - 1]) then |s| else ContentEnd(s[..|s| - 1])
  }

  /** `s.trim()`: the segment of `s` left once leading and trailing white
      space is removed. */
  function Trim(s: string): (r: string)
    ensures ContentStart(s) + |r| <= |s|
    ensures r == s[ContentStart(s)..ContentStart(s) + |r|]
    ensures forall i :: ContentStart(s) + |r| <= i < |s| ==> IsJsSpace(s[i])
    ensures r != [] ==> !IsJsSpace(r[0]) && !IsJsSpace(r[|r| - 1])
  {
    var a := ContentStart(s);
    var t := s[a..];
    t[..ContentEnd(t)]
  }

  /** Trimming never changes whether a word that neither starts nor ends with
      white space occurs in a string. */
  lemma TrimKeepsOccurrences(s: string, k: string)
    requires |k| > 0 && !IsJsSpace(k[0]) && !IsJsSpace(k[|k| - 1])
    ensures Contains(Trim(s), k) <==> Contains(s, k)
  {
    if Contains(Trim(s), k) {
      TrimmedOccurrenceIsOriginal(s, k);
    }
    if Contains(s, k) {
      OccurrenceSurvivesTrim(s, k);
    }
  }

  lemma TrimmedOccurrenceIsOriginal(s: string, k: string)
    requires Contains(Trim(s), k)
    ensures Contains(s, k)
  {
    var r, a := Trim(s), ContentStart(s);
    var i :| 0 <= i <= |r| - |k| && OccursAt(r, k, i);
    assert s[a + i..a + i + |k|] == r[i..i + |k|];
    assert OccursAt(s, k, a + i);
  }

  lemma OccurrenceSurvivesTrim(s: string, k: string)
    requires |k| > 0 && !IsJsSpace(k[0]) && !IsJsSpace(k[|k| - 1])
    requires Contains(s, k)
    ensures Contains(Trim(s), k)
  {
    var i :| 0 <= i <= |s| - |k| && OccursAt(s, k, i);
    OccurrenceInSegment(s, Trim(s), ContentStart(s), k, i);
  }

  /** An occurrence of a word with non-space ends in `s` lies inside the
      segment `s[a..a + |r|]` when everything outside the segment is white
      space. */
  lemma OccurrenceInSegment(s: string, r: string, a: nat, k: string, i: nat)
    requires a + |r| <= |s| && r == s[a..a + |r|]
    requires forall j :: 0 <= j < a ==> IsJsSpace(s[j])
    requires forall j :: a + |r| <= j < |s| ==> IsJsSpace(s[j])
    requires |k| > 0 && !IsJsSpace(k[0]) && !IsJsSpace(k[|k| - 1])
    requires OccursAt(s, k, i)
    ensures Contains(r, k)
  {
    assert s[i] == k[0] && s[i + |k| - 1] == k[|k| - 1];
    assert a <= i;
    assert i + |k| <= a + |r|;
    SliceOfSlice(s, a, |r|, i, |k|);
    assert OccursAt(r, k, i - a);
  }

  lemma SliceOfSlice<T>(s: seq<T>, a: nat, n: nat, i: nat, k: nat)
    requires a <= i && i + k <= a + n <= |s|
    ensures s[a..a + n][i - a..i - a + k] == s[i..i + k]
  {
    var l, r := s[a..a + n][i - a..i - a + k], s[i..i + k];
    assert |l| == |r|;
    assert forall j :: 0 <= j < k ==> l[j] == s[i + j] == r[j];
  }

  // ---------------------------------------------------------------------------
  // UTF-16 lengths

  /** Number of UTF-16 code units JavaScript uses for `c`. */
  function Utf16Width(c: char): nat {
    if c as int >= 0x10000 then 2 else 1
  }

  /** `s.length`. */
  function Utf16Length(s: string): nat {
    if s == [] then 0 else Utf16Width(s[0]) + Utf16Length(s[1..])
  }

  /** `s.substring(0, n)` cut between whole characters: the longest prefix of
      `s` that fits in `n` UTF-16 code units. Where JavaScript would keep the
      high half of a surrogate pair at the cut, this drops the character. */
  function TakeUnits(s: string, n: nat): (r: string)
    ensures IsPrefix(r, s)
    ensures Utf16Length(r) <= n
    ensures Utf16Length(s) <= n ==> r == s
    ensures r != s ==> Utf16Length(r) + Utf16Width(s[|r|]) > n
  {
    if s == [] || Utf16Width(s[0]) > n then []
    else
      var rest := TakeUnits(s[1..], n - Utf16Width(s[0]));
      assert ([s[0]] + rest)[1..] == rest;
      [s[0]] + rest
  }

  /** Every character of `s` lies in the Basic Multilingual Plane. */
  predicate InPlane(s: string) {
    forall i :: 0 <= i < |s| ==> Utf16Width(s[i]) == 1
  }

  /** A string of characters of the Basic Multilingual Plane has one code
      unit per character, so `substring(0, n)` keeps its first `n`
      characters. */
  lemma {:induction false} TakeUnitsInPlane(s: string, n: nat)
    requires InPlane(s)
    ensures Utf16Length(s) == |s|
    ensures TakeUnits(s, n) == s[..Min(n, |s|)]
  {
    if s != [] {
      TakeUnitsInPlane(s[1..], if n == 0 then 0 else n - 1);
      if n > 0 {
        assert s[..Min(n, |s|)] == [s[0]] + s[1..][..Min(n - 1, |s| - 1)];
      }
    }
  }

  // ---------------------------------------------------------------------------
  // Joining and splitting

  /** `parts.join(sep)`. */
  function Join(parts: seq<string>, sep: string): string {
    if |parts| == 0 then ""
    else if |parts| == 1 then parts[0]
    else parts[0] + sep + Join(parts[1..], sep)
  }

  /** `s.split(sep)[0]`: the text before the first occurrence of `sep`, or all
      of `s` when `sep` does not occur. */
  function SplitHead(s: string, sep: string): (r: string)
    requires |sep| > 0
    ensures IsPrefix(r, s)
    ensures forall i :: 0 <= i < |r| ==> !OccursAt(s, sep, i)
    ensures r != s ==> OccursAt(s, sep, |r|)
    ensures r == s <==> !Contains(s, sep)
  {
    SplitHeadFrom(s, sep, 0)
  }

  function SplitHeadFrom(s: string, sep: string, i: nat): (r: string)
    requires |sep| > 0 && i <= |s|
    requires forall j :: 0 <= j < i ==> !OccursAt(s, sep, j)
    ensures IsPrefix(r, s) && i <= |r|
    ensures forall j :: 0 <= j < |r| ==> !OccursAt(s, sep, j)
    ensures r != s ==> OccursAt(s, sep, |r|)
    ensures r == s <==> !Contains(s, sep)
    decreases |s| - i
  {
    if i + |sep| > |s| then s
    else if OccursAt(s, sep, i) then s[..i]
    else SplitHeadFrom(s, sep, i + 1)
  }

  // ---------------------------------------------------------------------------
  // Decimal rendering of numbers in template strings

  predicate IsDigit(c: char) {
    '0' <= c <= '9'
  }

  function DigitChar(d: nat): char
    requires d < 10
  {
    ('0' as int + d) as char
  }

  function DigitValue(c: char): nat {
    if IsDigit(c) then c as int - '0' as int else 0
  }

  /** The number a string of decimal digits denotes. */
  function DecimalValue(s: string): nat {
    if s == [] then 0 else 10 * DecimalValue(s[..|s| - 1]) + DigitValue(s[|s| - 1])
  }

  /** `${n}` for a natural number: decimal digits without leading zeros. */
  function NatToString(n: nat): (r: string)
    ensures |r| >= 1
    ensures forall i :: 0 <= i < |r| ==> IsDigit(r[i])
    ensures n > 0 ==> r[0] != '0'
    ensures DecimalValue(r) == n
    decreases n
  {
    if n < 10 then [DigitChar(n)]
    else
      var high := NatToString(n / 10);
      assert (high + [DigitChar(n % 10)])[..|high|] == high;
      high + [DigitChar(n % 10)]
  }

  /** `${i}` for an integer. */
  function IntToString(i: int): string {
    if i < 0 then "-" + NatToString(-i) else NatToString(i)
  }
}
