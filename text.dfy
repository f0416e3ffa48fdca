/** The few string operations the views rely on, restricted to ASCII:
    `toLowerCase`, `includes`, `trim` (as a blank test), `localeCompare`
    (as code-point order) and the decimal rendering of integers in messages. */
module Text {

  /** ASCII lower-casing of one character; other characters are unchanged. */
  function LowerChar(c: char): char
  {
    if 'A' <= c <= 'Z' then (c as int - 'A' as int + 'a' as int) as char else c
  }

  function Lower(s: string): (r: string)
    ensures |r| == |s|
    ensures forall i :: 0 <= i < |s| ==> r[i] == LowerChar(s[i])
  {
    if s == [] then [] else [LowerChar(s[0])] + Lower(s[1..])
  }

  /** `t` occurs in `s` starting at index `i`. */
  ghost predicate OccursAt(s: string, t: string, i: int)
  {
    0 <= i && i + |t| <= |s| && s[i..i + |t|] == t
  }

  /** `s.includes(t)`: some window of `s` equals `t`. */
  predicate Contains(s: string, t: string)
    decreases |s|
  {
    t <= s || (s != [] && Contains(s[1..], t))
  }

  /** `Contains` is exactly "`t` occurs somewhere in `s`". */
  lemma {:induction false} ContainsIff(s: string, t: string)
    ensures Contains(s, t) <==> exists i :: OccursAt(s, t, i)
    decreases |s|
  {
    if t <= s {
      assert OccursAt(s, t, 0);
    } else if s != [] {
      ContainsIff(s[1..], t);
      if Contains(s[1..], t) {
        var i :| OccursAt(s[1..], t, i);
        assert s[1..][i..i + |t|] == s[i + 1..i + 1 + |t|];
        assert OccursAt(s, t, i + 1);
      }
      assert OccursAt(s, t, 0) ==> t <= s;
      if i :| OccursAt(s, t, i) {
        assert s[1..][i - 1..i - 1 + |t|] == s[i..i + |t|];
        assert OccursAt(s[1..], t, i - 1);
      }
    }
  }

  /** The characters that `String.prototype.trim` removes, ASCII part. */
  predicate IsSpace(c: char)
  {
    c == ' ' || c == '\t' || c == '\n' || c == '\r' || c == '\U{000B}' || c == '\U{000C}'
  }

  /** `!s.trim()`: nothing but white space is left. */
  predicate IsBlank(s: string)
  {
    forall i :: 0 <= i < |s| ==> IsSpace(s[i])
  }

  /** `a.localeCompare(b)` as code-point lexicographic order: -1, 0 or 1. */
  function Compare(a: string, b: string): (r: int)
    ensures -1 <= r <= 1
    ensures r == 0 <==> a == b
  {
    if a == [] && b == [] then 0
    else if a == [] then -1
    else if b == [] then 1
    else if a[0] < b[0] then -1
    else if a[0] > b[0] then 1
    else Compare(a[1..], b[1..])
  }

  /** The order is antisymmetric: swapping the arguments negates the result. */
  lemma {:induction false} CompareSwap(a: string, b: string)
    ensures Compare(b, a) == -Compare(a, b)
  {
    if a != [] && b != [] && a[0] == b[0] {
      CompareSwap(a[1..], b[1..]);
    }
  }

  /** The order is transitive. */
  lemma {:induction false} CompareTransitive(a: string, b: string, c: string)
    requires Compare(a, b) <= 0 && Compare(b, c) <= 0
    ensures Compare(a, c) <= 0
  {
    if a != [] && b != [] && c != [] && a[0] == b[0] && b[0] == c[0] {
      CompareTransitive(a[1..], b[1..], c[1..]);
    }
  }

  function DigitChar(d: int): char
    requires 0 <= d < 10
  {
    ('0' as int + d) as char
  }

  function NatToString(n: nat): string
  {
    if n < 10 then [DigitChar(n)] else NatToString(n / 10) + [DigitChar(n % 10)]
  }

  /** Decimal rendering of an integer, as a template literal prints it. */
  function IntToString(n: int): string
  {
    if n < 0 then "-" + NatToString(-n) else NatToString(n)
  }
}
