/**
 * The small part of JavaScript value semantics the pages rely on:
 * optional values, truthiness of strings, ASCII case mapping,
 * `String.prototype.includes`, `localeCompare` (as code-point order) and
 * decimal numerals (`Number.prototype.toString`, `Number.parseInt`).
 */
module Js {

  datatype Option<+T> = None | Some(value: T)

  /** A string value is truthy when it is defined and non-empty. */
  predicate Truthy(o: Option<string>) {
    o.Some? && o.value != ""
  }

  /** `o || fallback` for an optional string. */
  function OrElse(o: Option<string>, fallback: string): string {
    if Truthy(o) then o.value else fallback
  }

  /** Reading key `k` of a JavaScript object whose fields are strings. */
  function Field(obj: map<string, string>, k: string): Option<string> {
    if k in obj then Some(obj[k]) else None
  }

  // ---------------------------------------------------------------------
  // Case mapping (ASCII only)

  function LowerChar(c: char): char {
    if 'A' <= c <= 'Z' then (c as int - 'A' as int + 'a' as int) as char else c
  }

  function UpperChar(c: char): char {
    if 'a' <= c <= 'z' then (c as int - 'a' as int + 'A' as int) as char else c
  }

  /** `s.toLowerCase()`: same length, every character lower-cased. */
  function Lower(s: string): (r: string)
    ensures |r| == |s|
    ensures forall i :: 0 <= i < |s| ==> r[i] == LowerChar(s[i])
  {
    if s == [] then [] else [LowerChar(s[0])] + Lower(s[1..])
  }

  // ---------------------------------------------------------------------
  // Substring search

  /** `needle` occurs in `haystack` starting at index `i`. */
  predicate OccursAt(haystack: string, needle: string, i: nat) {
    i + |needle| <= |haystack| && haystack[i..i + |needle|] == needle
  }

  /**
   * `haystack.includes(needle)`, computed by scanning from the left: a
   * prefix is always found, and a needle longer than the haystack never is.
   */
  function Includes(haystack: string, needle: string): (r: bool)
    ensures needle <= haystack ==> r
    ensures |needle| > |haystack| ==> !r
    decreases |haystack|
  {
    if needle <= haystack then true
    else if haystack == [] then false
    else Includes(haystack[1..], needle)
  }

  /** The scan finds `needle` exactly when it occurs somewhere in `haystack`. */
  lemma IncludesIffOccurs(haystack: string, needle: string)
    ensures Includes(haystack, needle) <==> exists i: nat :: OccursAt(haystack, needle, i)
  {
    if Includes(haystack, needle) {
      var i := IncludesWitness(haystack, needle);
    }
    forall i: nat | OccursAt(haystack, needle, i) ensures Includes(haystack, needle) {
      OccursAtIncluded(haystack, needle, i);
    }
  }

  /** When the scan succeeds it has found an occurrence. */
  lemma {:induction false} IncludesWitness(haystack: string, needle: string) returns (i: nat)
    requires Includes(haystack, needle)
    ensures OccursAt(haystack, needle, i)
    decreases |haystack|
  {
    if needle <= haystack {
      i := 0;
      assert haystack[0..|needle|] == haystack[..|needle|];
    } else {
      var j := IncludesWitness(haystack[1..], needle);
      assert haystack[j + 1..j + 1 + |needle|] == haystack[1..][j..j + |needle|];
      i := j + 1;
    }
  }

  /** Every occurrence is found by the scan. */
  lemma {:induction false} OccursAtIncluded(haystack: string, needle: string, i: nat)
    requires OccursAt(haystack, needle, i)
    ensures Includes(haystack, needle)
    decreases i
  {
    if i == 0 {
      assert haystack[..|needle|] == haystack[0..|needle|];
    } else if !(needle <= haystack) {
      assert haystack[1..][i - 1..i - 1 + |needle|] == haystack[i..i + |needle|];
      OccursAtIncluded(haystack[1..], needle, i - 1);
    }
  }

  /** Every string includes the empty string. */
  lemma IncludesEmpty(haystack: string)
    ensures Includes(haystack, "")
  {
  }

  // ---------------------------------------------------------------------
  // Ordering: `a.localeCompare(b)` taken as lexicographic order of code points

  /**
   * -1, 0 or 1 as `a` sorts before, with, or after `b`; a prefix never sorts
   * after the string it begins.
   */
  function LocaleCompare(a: string, b: string): (r: int)
    ensures -1 <= r <= 1
    ensures a <= b ==> r <= 0
  {
    if a == [] && b == [] then 0
    else if a == [] then -1
    else if b == [] then 1
    else if a[0] < b[0] then -1
    else if a[0] > b[0] then 1
    else LocaleCompare(a[1..], b[1..])
  }

  /** Swapping the operands flips the sign, and zero means equal strings. */
  lemma {:induction false} LocaleCompareAntisymmetric(a: string, b: string)
    ensures LocaleCompare(a, b) == -LocaleCompare(b, a)
    ensures LocaleCompare(a, b) == 0 <==> a == b
    ensures -1 <= LocaleCompare(a, b) <= 1
  {
    if a != [] && b != [] && a[0] == b[0] {
      LocaleCompareAntisymmetric(a[1..], b[1..]);
      assert a == [a[0]] + a[1..] && b == [b[0]] + b[1..];
    }
  }

  /** "Not after" is transitive, so the order is a total preorder. */
  lemma {:induction false} LocaleCompareTransitive(a: string, b: string, c: string)
    requires LocaleCompare(a, b) <= 0 && LocaleCompare(b, c) <= 0
    ensures LocaleCompare(a, c) <= 0
  {
    if a != [] && b != [] && c != [] && a[0] == b[0] == c[0] {
      LocaleCompareTransitive(a[1..], b[1..], c[1..]);
    }
  }

  // ---------------------------------------------------------------------
  // Decimal numerals

  predicate IsDigit(c: char) {
    '0' <= c <= '9'
  }

  predicate AllDigits(s: string) {
    forall i :: 0 <= i < |s| ==> IsDigit(s[i])
  }

  /** A well-formed non-negative integer literal. */
  predicate IsNumeral(s: string) {
    s != [] && AllDigits(s)
  }

  function DigitChar(d: nat): char
    requires d < 10
  {
    ('0' as int + d) as char
  }

  /** `n.toString()` for a non-negative integer. */
  function NumberToString(n: nat): (s: string)
    ensures IsNumeral(s)
    ensures |s| >= 1 && (n >= 10 ==> |s| >= 2)
  {
    if n < 10 then [DigitChar(n)] else NumberToString(n / 10) + [DigitChar(n % 10)]
  }

  /**
   * `Number.parseInt(s)` on a string of digits: the last digit is the units
   * digit of the value, and a string of zeros is worth 0. The empty string,
   * for which JavaScript gives NaN, is only the base case of the recursion:
   * callers pass numerals (`IsNumeral`), never "".
   */
  function ParseInt(s: string): (r: nat)
    requires AllDigits(s)
    ensures s != [] ==> r % 10 == s[|s| - 1] as int - '0' as int
    ensures (forall i :: 0 <= i < |s| ==> s[i] == '0') ==> r == 0
  {
    if s == [] then 0 else ParseInt(s[..|s| - 1]) * 10 + (s[|s| - 1] as int - '0' as int)
  }

  /** Printing a number and parsing it back gives the number. */
  lemma {:induction false} ParseIntOfToString(n: nat)
    ensures ParseInt(NumberToString(n)) == n
  {
    var s := NumberToString(n);
    if n >= 10 {
      ParseIntOfToString(n / 10);
      assert s[..|s| - 1] == NumberToString(n / 10);
    }
  }
}
