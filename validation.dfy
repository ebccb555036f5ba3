/** The class-validator checks the DTOs declare, as the global validation pipe
    runs them: each failed constraint adds its message, and a body is accepted
    only when no message is left. */
module Validation {

  /** A body property: a string, or anything else (absent, null, a number, ...). */
  datatype Value = Text(s: string) | NotText

  predicate IsSelector(c: char) {
    c == '\U{FE0E}' || c == '\U{FE0F}'
  }

  /** The length `isLength` measures: code points, not counting the variation
      selectors U+FE0E and U+FE0F. */
  function ValidatorLength(s: string): (n: nat)
    ensures n <= |s|
    ensures (forall i :: 0 <= i < |s| ==> !IsSelector(s[i])) ==> n == |s|
  {
    if s == [] then 0 else (if IsSelector(s[0]) then 0 else 1) + ValidatorLength(s[1..])
  }

  /** The default message of `@IsString()`. */
  function NotStringMessage(property: string): string {
    property + " must be a string"
  }

  /** A string measures 0 exactly when it is made of variation selectors only. */
  lemma {:induction false} ZeroLengthSelectorsOnly(s: string)
    ensures ValidatorLength(s) == 0 <==> forall i :: 0 <= i < |s| ==> IsSelector(s[i])
  {
    if s != [] {
      ZeroLengthSelectorsOnly(s[1..]);
      assert forall i :: 1 <= i < |s| ==> s[i] == s[1..][i - 1];
    }
  }

  /** `@IsString()`, `@MinLength(min)` and `@MaxLength(max)` on one property:
      a value that is not a string fails all three. */
  function LengthErrors(property: string, v: Value, min: nat, max: nat, minMessage: string, maxMessage: string): (errors: set<string>)
    ensures v == NotText ==> errors == {NotStringMessage(property), minMessage, maxMessage}
    ensures v.Text? && minMessage != maxMessage ==> (minMessage in errors <==> ValidatorLength(v.s) < min)
    ensures v.Text? && minMessage != maxMessage ==> (maxMessage in errors <==> ValidatorLength(v.s) > max)
    ensures v.Text? ==> errors <= {minMessage, maxMessage}
    ensures errors == {} <==> v.Text? && min <= ValidatorLength(v.s) <= max
  {
    (if v.Text? then {} else {NotStringMessage(property)})
    + (if v.Text? && ValidatorLength(v.s) >= min then {} else {minMessage})
    + (if v.Text? && ValidatorLength(v.s) <= max then {} else {maxMessage})
  }
}
