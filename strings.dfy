/**
 * The JavaScript string operations the audit subsystem relies on, over `seq<char>`:
 * the decimal form of integers, `includes`, ASCII case mapping, `split` and `join`
 * with a one-character separator, and a global one-character `replace`.
 */
module Strings {

  predicate IsDigits(s: string) {
    forall i :: 0 <= i < |s| ==> '0' <= s[i] <= '9'
  }

  function DigitChar(d: nat): (c: char)
    requires d < 10
    ensures '0' <= c <= '9'
    ensures (c == '0') == (d == 0)
  {
    ('0' as int + d) as char
  }

  /** String(n) for a non-negative integer: its decimal digits, without leading zeros. */
  function NatToDecimal(n: nat): (s: string)
    ensures 1 <= |s| && IsDigits(s)
    ensures (s[0] == '0') == (n == 0)
  {
    if n < 10 then [DigitChar(n)] else NatToDecimal(n / 10) + [DigitChar(n % 10)]
  }

  /** The number a string of decimal digits denotes. */
  function DecimalValue(s: string): nat
    requires IsDigits(s)
  {
    if s == [] then 0 else DecimalValue(s[..|s| - 1]) * 10 + (s[|s| - 1] as int - '0' as int)
  }

  /** Reading back the digits NatToDecimal writes gives the number again. */
  lemma {:induction false} DecimalRoundTrip(n: nat)
    ensures DecimalValue(NatToDecimal(n)) == n
  {
    if n >= 10 {
      var s := NatToDecimal(n);
      assert s[..|s| - 1] == NatToDecimal(n / 10);
      DecimalRoundTrip(n / 10);
    }
  }

  /** Different numbers have different decimal forms. */
  lemma NatToDecimalInjective()
    ensures forall m: nat, n: nat :: NatToDecimal(m) == NatToDecimal(n) ==> m == n
  {
    forall m: nat, n: nat | NatToDecimal(m) == NatToDecimal(n)
      ensures m == n
    {
      DecimalRoundTrip(m);
      DecimalRoundTrip(n);
    }
  }

  /** String(n) for any integer. */
  function IntToDecimal(n: int): (r: string)
    ensures |r| >= 1
    ensures n >= 0 ==> IsDigits(r) && DecimalValue(r) == n
    ensures n < 0 ==> |r| >= 2 && r[0] == '-' && IsDigits(r[1..]) && DecimalValue(r[1..]) == -n
  {
    if n < 0 then
      DecimalRoundTrip(-n);
      assert ("-" + NatToDecimal(-n))[1..] == NatToDecimal(-n);
      "-" + NatToDecimal(-n)
    else
      DecimalRoundTrip(n);
      NatToDecimal(n)
  }

  /** part occurs in s starting at offset i. */
  predicate OccursAt(s: string, part: string, i: int) {
    0 <= i && i + |part| <= |s| && s[i..i + |part|] == part
  }

  /** s.includes(part): part occurs in s at some offset. */
  predicate Contains(s: string, part: string) {
    exists i :: 0 <= i <= |s| - |part| && OccursAt(s, part, i)
  }

  /**
   * s includes part exactly when s is part with something before and something after it;
   * so only a string at least as long as part includes it, and every string includes "".
   */
  lemma ContainsIsInfix(s: string, part: string)
    ensures Contains(s, part) <==> exists a, b :: s == a + part + b
    ensures Contains(s, part) ==> |part| <= |s|
    ensures Contains(s, [])
  {
    assert OccursAt(s, [], 0);
    if Contains(s, part) {
      var i :| 0 <= i <= |s| - |part| && OccursAt(s, part, i);
      assert s == s[..i] + part + s[i + |part|..];
    }
    if exists a, b :: s == a + part + b {
      var a, b :| s == a + part + b;
      assert s[|a|..|a| + |part|] == part;
      assert OccursAt(s, part, |a|);
    }
  }

  function LowerChar(c: char): char {
    if 'A' <= c <= 'Z' then (c as int + 32) as char else c
  }

  function UpperChar(c: char): char {
    if 'a' <= c <= 'z' then (c as int - 32) as char else c
  }

  /** toLowerCase restricted to ASCII letters. */
  function Lower(s: string): (r: string)
    ensures |r| == |s|
    ensures forall i :: 0 <= i < |s| ==> r[i] == LowerChar(s[i])
    ensures forall i :: 0 <= i < |r| ==> !('A' <= r[i] <= 'Z')
  {
    if s == [] then [] else [LowerChar(s[0])] + Lower(s[1..])
  }

  /** toUpperCase restricted to ASCII letters. */
  function Upper(s: string): (r: string)
    ensures |r| == |s|
    ensures forall i :: 0 <= i < |s| ==> r[i] == UpperChar(s[i])
    ensures forall i :: 0 <= i < |r| ==> !('a' <= r[i] <= 'z')
  {
    if s == [] then [] else [UpperChar(s[0])] + Upper(s[1..])
  }

  /** Case-insensitive substring test: a pattern with the `i` option and no metacharacters. */
  predicate ContainsIgnoreCase(s: string, part: string) {
    Contains(Lower(s), Lower(part))
  }

  /** Lower-casing forgets an earlier upper- or lower-casing. */
  lemma LowerOfUpper(s: string)
    ensures Lower(Upper(s)) == Lower(s)
    ensures Lower(Lower(s)) == Lower(s)
  {
    assert forall i :: 0 <= i < |s| ==> Lower(Upper(s))[i] == Lower(s)[i];
    assert forall i :: 0 <= i < |s| ==> Lower(Lower(s))[i] == Lower(s)[i];
  }

  /** Lower-casing maps an occurrence of part in s to one of its lower-cased form. */
  lemma LowerKeepsOccurrence(s: string, part: string, i: int)
    requires OccursAt(s, part, i)
    ensures OccursAt(Lower(s), Lower(part), i)
  {
    var window := Lower(s)[i..i + |part|];
    forall k | 0 <= k < |part|
      ensures window[k] == Lower(part)[k]
    {
      assert s[i..i + |part|][k] == part[k];
    }
  }

  /**
   * The `i` option ignores case on both sides: upper- or lower-casing the text and the
   * pattern changes no answer, and an exact occurrence is always found.
   */
  lemma CaseInsensitiveSearch(s: string, part: string)
    ensures ContainsIgnoreCase(s, part) == ContainsIgnoreCase(Upper(s), Upper(part))
    ensures ContainsIgnoreCase(s, part) == ContainsIgnoreCase(Lower(s), Lower(part))
    ensures Contains(s, part) ==> ContainsIgnoreCase(s, part)
  {
    LowerOfUpper(s);
    LowerOfUpper(part);
    if Contains(s, part) {
      var i :| 0 <= i <= |s| - |part| && OccursAt(s, part, i);
      LowerKeepsOccurrence(s, part, i);
    }
  }

  /** parts.join(sep) */
  function Join(parts: seq<string>, sep: char): string {
    if |parts| == 0 then ""
    else if |parts| == 1 then parts[0]
    else parts[0] + [sep] + Join(parts[1..], sep)
  }

  /** `s || fallback` for a string: the fallback replaces the empty string. */
  function OrElse(s: string, fallback: string): string {
    if s != "" then s else fallback
  }

  /** s.split(sep) for a one-character separator: the pieces between separators, [""] for "". */
  function Split(s: string, sep: char): (parts: seq<string>)
    ensures |parts| >= 1
  {
    if s == [] then [""]
    else if s[0] == sep then [""] + Split(s[1..], sep)
    else
      var rest := Split(s[1..], sep);
      [[s[0]] + rest[0]] + rest[1..]
  }

  lemma {:induction false} SplitWithoutSeparator(p: string, sep: char)
    requires sep !in p
    ensures Split(p, sep) == [p]
  {
    if p != [] {
      SplitWithoutSeparator(p[1..], sep);
      assert [p[0]] + p[1..] == p;
    }
  }

  lemma {:induction false} SplitPiece(p: string, rest: string, sep: char)
    requires sep !in p
    ensures Split(p + [sep] + rest, sep) == [p] + Split(rest, sep)
  {
    if p == [] {
      assert p + [sep] + rest == [sep] + rest;
      assert ([sep] + rest)[1..] == rest;
    } else {
      SplitPiece(p[1..], rest, sep);
      assert (p + [sep] + rest)[1..] == p[1..] + [sep] + rest;
      assert [p[0]] + p[1..] == p;
    }
  }

  /** Splitting a join gives the parts back when no part holds the separator. */
  lemma {:induction false} SplitJoin(parts: seq<string>, sep: char)
    requires |parts| >= 1
    requires forall i :: 0 <= i < |parts| ==> sep !in parts[i]
    ensures Split(Join(parts, sep), sep) == parts
  {
    if |parts| == 1 {
      SplitWithoutSeparator(parts[0], sep);
    } else {
      SplitJoin(parts[1..], sep);
      SplitPiece(parts[0], Join(parts[1..], sep), sep);
      assert [parts[0]] + parts[1..] == parts;
    }
  }

  /** s.replace(/from/g, to) for single characters. */
  function ReplaceAll(s: string, from: char, to: char): (r: string)
    ensures |r| == |s|
    ensures from != to ==> from !in r
    ensures forall i :: 0 <= i < |s| ==> r[i] == if s[i] == from then to else s[i]
  {
    if s == [] then [] else [if s[0] == from then to else s[0]] + ReplaceAll(s[1..], from, to)
  }
}
