/**
 * The few string operations of Python that the scoring step relies on:
 * `str.lower()`, `str.capitalize()`, the substring test `needle in hay`
 * and the prefix slice `s[:n]`. Case mapping covers ASCII letters only.
 */
module Strings {

  predicate IsUpper(c: char) { 'A' <= c <= 'Z' }

  predicate IsLower(c: char) { 'a' <= c <= 'z' }

  function LowerChar(c: char): char
  {
    if IsUpper(c) then (c as int - 'A' as int + 'a' as int) as char else c
  }

  function UpperChar(c: char): char
  {
    if IsLower(c) then (c as int - 'a' as int + 'A' as int) as char else c
  }

  /** `s.lower()` */
  function Lower(s: string): string
  {
    seq(|s|, i requires 0 <= i < |s| => LowerChar(s[i]))
  }

  /** `s.capitalize()`: the first character upper-cased, every other one lower-cased. */
  function Capitalize(s: string): string
  {
    if s == "" then "" else [UpperChar(s[0])] + Lower(s[1..])
  }

  /** The shape `capitalize()` gives: no lower-case letter first, no upper-case letter after it. */
  predicate IsCapitalized(s: string)
  {
    (s != "" ==> !IsLower(s[0])) && forall i :: 1 <= i < |s| ==> !IsUpper(s[i])
  }

  /**
   * Every result of `capitalize()` has the capitalised shape and the same
   * characters as its input up to case; the strings it leaves unchanged are
   * exactly those already of that shape.
   */
  lemma CapitalizeNormalForm(s: string)
    ensures IsCapitalized(Capitalize(s))
    ensures |Capitalize(s)| == |s| && Lower(Capitalize(s)) == Lower(s)
    ensures Capitalize(s) == s <==> IsCapitalized(s)
  {
    if s != "" {
      var r := Capitalize(s);
      if IsCapitalized(s) {
        assert r[0] == s[0];
        forall i | 1 <= i < |s| ensures r[i] == s[i] {
          assert r[i] == LowerChar(s[i]);
        }
      }
    }
  }

  /**
   * The capitalised shape and equality up to case determine `capitalize()`:
   * a string of that shape with the letters of `s` is `Capitalize(s)`.
   */
  lemma CapitalizeUnique(s: string, r: string)
    requires IsCapitalized(r) && |r| == |s| && Lower(r) == Lower(s)
    ensures r == Capitalize(s)
  {
    var c := Capitalize(s);
    forall i | 0 <= i < |s| ensures r[i] == c[i] {
      assert Lower(r)[i] == Lower(s)[i];
      if i == 0 {
        assert LowerChar(r[0]) == LowerChar(s[0]);
      } else {
        assert c[i] == LowerChar(s[i]);
      }
    }
  }

  /** `needle` occurs in `hay` starting at index `k`. */
  ghost predicate OccursAt(hay: string, needle: string, k: int)
  {
    0 <= k && k + |needle| <= |hay| && hay[k..k + |needle|] == needle
  }

  /** Python's `needle in hay` on strings, by scanning the start positions left to right. */
  function Contains(hay: string, needle: string): bool
    decreases |hay|
  {
    if |needle| > |hay| then false
    else if hay[..|needle|] == needle then true
    else Contains(hay[1..], needle)
  }

  /** The scan finds `needle` exactly when it occurs at some position of `hay`. */
  lemma {:induction false} ContainsIffOccurs(hay: string, needle: string)
    ensures Contains(hay, needle) <==> exists k :: OccursAt(hay, needle, k)
    decreases |hay|
  {
    if |needle| > |hay| {
    } else if hay[..|needle|] == needle {
      assert OccursAt(hay, needle, 0);
    } else {
      ContainsIffOccurs(hay[1..], needle);
      if Contains(hay[1..], needle) {
        var k :| OccursAt(hay[1..], needle, k);
        assert hay[k + 1..k + 1 + |needle|] == hay[1..][k..k + |needle|];
        assert OccursAt(hay, needle, k + 1);
      } else {
        forall k | OccursAt(hay, needle, k) ensures false {
          assert k != 0;
          assert hay[1..][k - 1..k - 1 + |needle|] == hay[k..k + |needle|];
          assert OccursAt(hay[1..], needle, k - 1);
        }
      }
    }
  }

  function Min(a: int, b: int): int { if a <= b then a else b }

  /** `s[:n]` for a non-negative `n`. */
  function Take<T>(s: seq<T>, n: nat): (r: seq<T>)
    ensures |r| == Min(n, |s|)
    ensures r == s[..|r|]
  {
    if n <= |s| then s[..n] else s
  }
}
