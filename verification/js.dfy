/** The few pieces of JavaScript semantics the modelled code relies on:
    `String.prototype.toUpperCase` restricted to ASCII letters, truthiness of
    an optional string, `||` defaulting, and `Array.prototype.slice(0, end)`. */
module Js {
  import opened Wrappers

  predicate IsLower(c: char) {
    'a' <= c <= 'z'
  }

  /** `toUpperCase` on one character: ASCII lower-case letters move to the
      upper-case block, every other character is left alone. */
  function UpperChar(c: char): (u: char)
    ensures !IsLower(u)
    ensures !IsLower(c) ==> u == c
    ensures IsLower(c) ==> 'A' <= u <= 'Z' && u as int - 'A' as int == c as int - 'a' as int
  {
    if IsLower(c) then (c as int - 'a' as int + 'A' as int) as char else c
  }

  /** `toUpperCase` on a string, character by character. */
  function Upper(s: string): (u: string)
    ensures |u| == |s|
    ensures forall i :: 0 <= i < |s| ==> u[i] == UpperChar(s[i])
  {
    if |s| == 0 then "" else [UpperChar(s[0])] + Upper(s[1..])
  }

  /** A string is upper-case when it holds no lower-case ASCII letter. */
  predicate IsUpper(s: string) {
    forall i :: 0 <= i < |s| ==> !IsLower(s[i])
  }

  /** The comparison `a.toUpperCase() === b.toUpperCase()`: equal strings
      compare equal, and strings that compare equal have the same length. */
  predicate EqualsIgnoreCase(a: string, b: string): (r: bool)
    ensures a == b ==> r
    ensures r ==> |a| == |b|
  {
    Upper(a) == Upper(b)
  }

  lemma UpperIsUpper(s: string)
    ensures IsUpper(Upper(s))
  {
  }

  /** An upper-case string is its own upper-case form. */
  lemma UpperOfUpper(s: string)
    requires IsUpper(s)
    ensures Upper(s) == s
  {
  }

  /** Upper-casing twice is upper-casing once. */
  lemma UpperIdempotent(s: string)
    ensures Upper(Upper(s)) == Upper(s)
  {
  }

  /** Any case variant of `s` matches the upper-case form of `s`. */
  lemma EqualsIgnoreCaseUpper(s: string, t: string)
    requires EqualsIgnoreCase(s, t)
    ensures EqualsIgnoreCase(Upper(s), t)
  {
  }

  /** JavaScript truthiness of an optional string: `undefined` and `''` are
      falsy, every other string is truthy. */
  predicate Truthy(o: Option<string>): (r: bool)
    ensures o == None ==> !r
    ensures o == Some("") ==> !r
    ensures o.Some? && |o.value| > 0 ==> r
  {
    o.Some? && o.value != ""
  }

  /** The expression `o || fallback` for an optional string. */
  function OrElse(o: Option<string>, fallback: string): (r: string)
    ensures Truthy(o) ==> r == o.value
    ensures !Truthy(o) ==> r == fallback
  {
    if Truthy(o) then o.value else fallback
  }

  /** The end index `Array.prototype.slice(0, end)` actually uses: a negative
      end counts back from the length, and the result is clamped to
      `[0, |s|]`. */
  function SliceEnd(len: nat, end: int): (k: nat)
    ensures k <= len
    ensures 0 <= end ==> k == if end < len then end else len
    ensures end < 0 ==> k == if len + end < 0 then 0 else len + end
  {
    if end < 0 then (if len + end < 0 then 0 else len + end)
    else if end < len then end else len
  }

  /** `s.slice(0, end)`. */
  function SliceTo<T>(s: seq<T>, end: int): (r: seq<T>)
    ensures |r| == SliceEnd(|s|, end)
    ensures forall i :: 0 <= i < |r| ==> r[i] == s[i]
  {
    s[..SliceEnd(|s|, end)]
  }
}
