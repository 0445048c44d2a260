/**
 * Case helpers for identifiers: upper- or lower-case the first character and
 * keep the rest. Case mapping is modelled on ASCII letters only.
 */
module Naming {

  predicate IsUpper(c: char) { 'A' <= c <= 'Z' }

  predicate IsLower(c: char) { 'a' <= c <= 'z' }

  function UpperChar(c: char): (u: char)
    ensures !IsLower(u)
    ensures IsLower(c) ==> IsUpper(u) && u as int == c as int - 32
    ensures !IsLower(c) ==> u == c
  {
    if IsLower(c) then (c as int - 32) as char else c
  }

  function LowerChar(c: char): (l: char)
    ensures !IsUpper(l)
    ensures IsUpper(c) ==> IsLower(l) && l as int == c as int + 32
    ensures !IsUpper(c) ==> l == c
  {
    if IsUpper(c) then (c as int + 32) as char else c
  }

  /** `toPascalCase`: `first()` fails on the empty string, hence the requires. */
  function ToPascalCase(s: string): (r: string)
    requires |s| > 0
    ensures |r| == |s| && r[1..] == s[1..]
    ensures !IsLower(r[0])
    ensures r[0] == UpperChar(s[0])
  {
    [UpperChar(s[0])] + s[1..]
  }

  /** `toCamelCase`: `first()` fails on the empty string, hence the requires. */
  function ToCamelCase(s: string): (r: string)
    requires |s| > 0
    ensures |r| == |s| && r[1..] == s[1..]
    ensures !IsUpper(r[0])
    ensures r[0] == LowerChar(s[0])
  {
    [LowerChar(s[0])] + s[1..]
  }

  lemma CaseHelpersIdempotent(s: string)
    requires |s| > 0
    ensures ToCamelCase(ToCamelCase(s)) == ToCamelCase(s)
    ensures ToPascalCase(ToPascalCase(s)) == ToPascalCase(s)
  {
  }

  /** Camel case undoes Pascal case on a name that starts with a lower-case letter, and conversely. */
  lemma CaseHelpersInverse(s: string)
    requires |s| > 0
    ensures !IsUpper(s[0]) ==> ToCamelCase(ToPascalCase(s)) == s
    ensures !IsLower(s[0]) ==> ToPascalCase(ToCamelCase(s)) == s
  {
  }
}
