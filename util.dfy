/** Small value types and string helpers shared by the whole model. */
module Util {

  datatype Option<+T> = None | Some(value: T)

  datatype Result<+T, +E> = Success(value: T) | Failure(error: E)

  function Min(a: int, b: int): int { if a <= b then a else b }

  /** An optional Python string that is set and truthy. */
  predicate NonEmpty(s: Option<string>)
  {
    s.Some? && s.value != ""
  }

  /** Python's `given or fallback` on optional strings. */
  function OrElse(given: Option<string>, fallback: Option<string>): Option<string>
  {
    if NonEmpty(given) then given else fallback
  }

  /** Python's `str.lower()` restricted to ASCII letters. */
  function LowerChar(c: char): (d: char)
    ensures 'A' <= c <= 'Z' ==> d as int == c as int + 32
    ensures !('A' <= c <= 'Z') ==> d == c
  {
    if 'A' <= c <= 'Z' then (c as int + 32) as char else c
  }

  function Lower(s: string): (r: string)
    ensures |r| == |s|
    ensures forall i | 0 <= i < |s| :: r[i] == LowerChar(s[i])
  {
    if s == [] then [] else [LowerChar(s[0])] + Lower(s[1..])
  }

  lemma LowerIdempotent(s: string)
    ensures Lower(Lower(s)) == Lower(s)
  {
    assert forall i | 0 <= i < |s| :: LowerChar(LowerChar(s[i])) == LowerChar(s[i]);
  }

  /** `pat` occurs in `text` starting at index `i`. */
  predicate OccursAt(text: string, pat: string, i: int)
  {
    0 <= i && i + |pat| <= |text| && text[i..i + |pat|] == pat
  }

  /** Python's `pat in text`: a substring test (the empty string occurs everywhere). */
  function Contains(text: string, pat: string): (r: bool)
    ensures r <==> exists i :: OccursAt(text, pat, i)
    decreases |text|
  {
    if |pat| > |text| then
      assert forall i :: !OccursAt(text, pat, i);
      false
    else if text[..|pat|] == pat then
      assert OccursAt(text, pat, 0);
      true
    else
      var r := Contains(text[1..], pat);
      assert forall i :: OccursAt(text[1..], pat, i) <==> OccursAt(text, pat, i + 1) by {
        forall i ensures OccursAt(text[1..], pat, i) <==> OccursAt(text, pat, i + 1) {
          if 0 <= i && i + |pat| <= |text| - 1 {
            assert text[1..][i..i + |pat|] == text[i + 1..i + 1 + |pat|];
          }
        }
      }
      assert !OccursAt(text, pat, 0);
      assert forall i :: OccursAt(text, pat, i) ==> i >= 1 && OccursAt(text[1..], pat, i - 1);
      r
  }

  /** Python's `sep.join(xs)`. */
  function Join(xs: seq<string>, sep: string): string
  {
    if |xs| == 0 then "" else if |xs| == 1 then xs[0] else xs[0] + sep + Join(xs[1..], sep)
  }

  /** The strings `f` renders for each element, glued end to end as a loop of `+=` builds them. */
  function ConcatMap<T>(f: T -> string, xs: seq<T>): string
  {
    if xs == [] then "" else ConcatMap(f, xs[..|xs| - 1]) + f(xs[|xs| - 1])
  }

  lemma {:induction false} ConcatMapAppend<T>(f: T -> string, a: seq<T>, b: seq<T>)
    ensures ConcatMap(f, a + b) == ConcatMap(f, a) + ConcatMap(f, b)
    decreases |b|
  {
    if b == [] {
      assert a + b == a;
    } else {
      var init := b[..|b| - 1];
      assert (a + b)[..|a + b| - 1] == a + init;
      assert (a + b)[|a + b| - 1] == b[|b| - 1];
      ConcatMapAppend(f, a, init);
    }
  }

  /** Element `i`'s piece starts where the pieces before it end. */
  lemma ConcatMapLayout<T>(f: T -> string, xs: seq<T>, i: nat)
    requires i < |xs|
    ensures var start := |ConcatMap(f, xs[..i])|;
      var all := ConcatMap(f, xs);
      start + |f(xs[i])| <= |all| && all[start..start + |f(xs[i])|] == f(xs[i])
  {
    assert xs == xs[..i] + [xs[i]] + xs[i + 1..];
    ConcatMapAppend(f, xs[..i] + [xs[i]], xs[i + 1..]);
    ConcatMapAppend(f, xs[..i], [xs[i]]);
    assert [xs[i]][..0] == [];
  }

  predicate IsDigit(c: char) { '0' <= c <= '9' }

  predicate AllDigits(s: string) { forall i | 0 <= i < |s| :: IsDigit(s[i]) }

  /** Python's `int(s)` on a string of ASCII decimal digits. */
  function DigitsValue(s: string): nat
    requires AllDigits(s)
  {
    if s == [] then 0 else DigitsValue(s[..|s| - 1]) * 10 + (s[|s| - 1] as int - '0' as int)
  }

  /** Python's `str(n)` for a non-negative integer. */
  function DecimalString(n: nat): (r: string)
    ensures r != [] && AllDigits(r)
    ensures |r| > 1 ==> r[0] != '0'
    decreases n
  {
    if n < 10 then [('0' as int + n) as char]
    else DecimalString(n / 10) + [('0' as int + n % 10) as char]
  }

  /** Printing a number and reading it back gives the number. */
  lemma {:induction false} DecimalStringRoundTrip(n: nat)
    ensures DigitsValue(DecimalString(n)) == n
    decreases n
  {
    var r := DecimalString(n);
    if n >= 10 {
      DecimalStringRoundTrip(n / 10);
      assert r[..|r| - 1] == DecimalString(n / 10);
    }
  }
}
