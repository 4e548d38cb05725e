/**
 * Case folding as the binding uses it: `String.toLowerCase()` applied to a
 * keyword before comparing it with a lower-case literal. Only the ASCII
 * letters are folded here.
 */
module Casing {

  predicate IsUpperAscii(c: char)
  {
    'A' <= c <= 'Z'
  }

  function LowerChar(c: char): char
  {
    if IsUpperAscii(c) then (c as int + 32) as char else c
  }

  function UpperChar(c: char): char
  {
    if 'a' <= c <= 'z' then (c as int - 32) as char else c
  }

  /** `s.toLowerCase()` */
  function Lower(s: string): (r: string)
    ensures |r| == |s|
  {
    if s == [] then [] else [LowerChar(s[0])] + Lower(s[1..])
  }

  /** `s.toUpperCase()`, used only to state case-insensitivity. */
  function Upper(s: string): (r: string)
    ensures |r| == |s|
  {
    if s == [] then [] else [UpperChar(s[0])] + Upper(s[1..])
  }

  /** No character of `s` is changed by lower-casing. */
  predicate NoUpper(s: string)
  {
    forall i :: 0 <= i < |s| ==> !IsUpperAscii(s[i])
  }

  lemma {:induction false} LowerIsNoUpper(s: string)
    ensures NoUpper(Lower(s))
  {
    if s != [] {
      LowerIsNoUpper(s[1..]);
      assert Lower(s) == [LowerChar(s[0])] + Lower(s[1..]);
    }
  }

  lemma {:induction false} LowerOfNoUpper(s: string)
    requires NoUpper(s)
    ensures Lower(s) == s
  {
    if s != [] {
      assert !IsUpperAscii(s[0]);
      LowerOfNoUpper(s[1..]);
    }
  }

  /** Lower-casing twice is lower-casing once. */
  lemma LowerIdempotent(s: string)
    ensures Lower(Lower(s)) == Lower(s)
  {
  }

  /** Lower-casing undoes upper-casing on a lower-case keyword. */
  lemma {:induction false} LowerOfUpper(s: string)
    requires NoUpper(s)
    ensures Lower(Upper(s)) == s
  {
    if s != [] {
      assert !IsUpperAscii(s[0]);
      LowerOfUpper(s[1..]);
      assert Upper(s) == [UpperChar(s[0])] + Upper(s[1..]);
    }
  }
}
