/** The JavaScript string operations the composables rely on, over `seq<char>`. */
module Strings {
  import opened Wrappers

  predicate StartsWith(s: string, p: string) {
    |p| <= |s| && s[..|p|] == p
  }

  predicate EndsWith(s: string, p: string) {
    |p| <= |s| && s[|s| - |p|..] == p
  }

  /** `p` occurs in `s` starting at index `i`. */
  predicate OccursAt(s: string, p: string, i: nat) {
    i + |p| <= |s| && s[i..i + |p|] == p
  }

  lemma OccursAtShift(s: string, p: string)
    requires s != []
    ensures !StartsWith(s, p) ==> !OccursAt(s, p, 0)
    ensures forall j: nat :: 0 < j ==> (OccursAt(s, p, j) <==> OccursAt(s[1..], p, j - 1))
  {
    if |p| <= |s| {
      assert s[..|p|] == s[0..|p|];
    }
    forall j: nat | 0 < j ensures OccursAt(s, p, j) <==> OccursAt(s[1..], p, j - 1) {
      if j + |p| <= |s| {
        assert s[1..][j - 1..j - 1 + |p|] == s[j..j + |p|];
      }
    }
  }

  /** `s.indexOf(p)`: the first index at which `p` occurs, if any. */
  function IndexOf(s: string, p: string): (r: Option<nat>)
    ensures r.Some? ==> OccursAt(s, p, r.value)
    ensures r.Some? ==> forall j :: 0 <= j < r.value ==> !OccursAt(s, p, j)
    ensures r.None? ==> forall j: nat :: !OccursAt(s, p, j)
    decreases |s|
  {
    if StartsWith(s, p) then Some(0)
    else if s == [] then None
    else
      OccursAtShift(s, p);
      match IndexOf(s[1..], p)
      case Some(k) => Some(k + 1)
      case None => None
  }

  /** `s.includes(p)` */
  predicate Contains(s: string, p: string) {
    IndexOf(s, p).Some?
  }

  lemma ContainsInPrefix(a: string, b: string, p: string)
    requires Contains(a, p)
    ensures Contains(a + b, p)
  {
    var i := IndexOf(a, p).value;
    assert (a + b)[i..i + |p|] == a[i..i + |p|];
    assert OccursAt(a + b, p, i);
  }

  lemma ContainsInMiddle(a: string, p: string, b: string)
    ensures Contains(a + p + b, p)
  {
    assert (a + p + b)[|a|..|a| + |p|] == p;
    assert OccursAt(a + p + b, p, |a|);
  }

  /** `s.split(c)[0]` for a one-character separator `c`. */
  function BeforeChar(s: string, c: char): (r: string)
    ensures c !in r && r <= s
    ensures |r| < |s| ==> s[|r|] == c
  {
    if s == [] || s[0] == c then [] else [s[0]] + BeforeChar(s[1..], c)
  }

  /** The last element of `s.split(c)`: what follows the last `c` in `s`. */
  function AfterLastChar(s: string, c: char): (r: string)
    ensures c !in r && EndsWith(s, r)
    ensures |r| < |s| ==> s[|s| - |r| - 1] == c
  {
    if s == [] || s[|s| - 1] == c then []
    else AfterLastChar(s[..|s| - 1], c) + [s[|s| - 1]]
  }

  /** `s.split(p)[0]` for a non-empty separator `p`. */
  function BeforeFirst(s: string, p: string): string {
    match IndexOf(s, p)
    case Some(i) => s[..i]
    case None => s
  }

  /** `s.split(p)[1]`, which exists when `p` occurs in `s`. */
  function SecondPiece(s: string, p: string): string
    requires Contains(s, p)
  {
    var i := IndexOf(s, p).value;
    BeforeFirst(s[i + |p|..], p)
  }

  /** `s.replace(p, q)` with a string pattern: only the first occurrence is replaced. */
  function ReplaceFirst(s: string, p: string, q: string): string {
    match IndexOf(s, p)
    case Some(i) => s[..i] + q + s[i + |p|..]
    case None => s
  }

  /** ASCII lower-casing of one character. */
  function LowerChar(c: char): char {
    if 'A' <= c <= 'Z' then (c as int + ('a' as int - 'A' as int)) as char else c
  }

  /** `s.toLowerCase()`, restricted to ASCII letters. */
  function Lower(s: string): string {
    seq(|s|, i requires 0 <= i < |s| => LowerChar(s[i]))
  }

  predicate IsDigit(c: char) {
    '0' <= c <= '9'
  }

  predicate AllDigits(s: string) {
    forall i :: 0 <= i < |s| ==> IsDigit(s[i])
  }

  function DigitChar(d: nat): char
    requires d < 10
  {
    ('0' as int + d) as char
  }

  /** The value of a string of decimal digits (leading zeros allowed). */
  function ParseDigits(s: string): nat
    requires AllDigits(s)
    decreases |s|
  {
    if s == [] then 0 else ParseDigits(s[..|s| - 1]) * 10 + (s[|s| - 1] as int - '0' as int)
  }

  /** The decimal notation of `n`, as `String(n)` prints a non-negative integer. */
  function NatToString(n: nat): (s: string)
    ensures s != [] && AllDigits(s)
    decreases n
  {
    if n < 10 then [DigitChar(n)] else NatToString(n / 10) + [DigitChar(n % 10)]
  }

  /** Reading back what `NatToString` prints gives the number again. */
  lemma {:induction false} ParseNatToString(n: nat)
    ensures ParseDigits(NatToString(n)) == n
  {
    if n >= 10 {
      ParseNatToString(n / 10);
      var s := NatToString(n);
      assert s[..|s| - 1] == NatToString(n / 10);
    }
  }

  /** `String(n)` for an integer. */
  function IntToString(n: int): string {
    if n < 0 then "-" + NatToString(-n) else NatToString(n)
  }

  /** The longest prefix of `s` made of decimal digits. */
  function LeadingDigits(s: string): (r: string)
    ensures r <= s && AllDigits(r)
    ensures |r| < |s| ==> !IsDigit(s[|r|])
  {
    if s == [] || !IsDigit(s[0]) then [] else [s[0]] + LeadingDigits(s[1..])
  }

  /** `parseInt(s)`: an optional sign, then the leading digits; `None` stands for `NaN`. */
  function ParseInt(s: string): Option<int> {
    var negative := s != [] && s[0] == '-';
    var rest := if s != [] && (s[0] == '-' || s[0] == '+') then s[1..] else s;
    var digits := LeadingDigits(rest);
    if digits == [] then None
    else if negative then Some(0 - ParseDigits(digits) as int)
    else Some(ParseDigits(digits))
  }
}
