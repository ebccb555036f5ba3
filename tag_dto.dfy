/** The body of `POST /tags`. */
module TagDto {
  import opened Validation

  const NameRequired: string := "Tag name is required"
  const NameTooLong: string := "Tag name is too long (max 50 characters)"

  /** `CreateTagDto`. */
  function CreateTagErrors(name: Value): (errors: set<string>)
    ensures errors == {} <==> name.Text? && 1 <= ValidatorLength(name.s) <= 50
    ensures name == NotText ==> NotStringMessage("name") in errors
    ensures name.Text? ==> (NameRequired in errors <==> ValidatorLength(name.s) == 0)
    ensures name.Text? ==> (NameTooLong in errors <==> ValidatorLength(name.s) > 50)
  {
    LengthErrors("name", name, 1, 50, NameRequired, NameTooLong)
  }

  /** A non-empty name made only of variation selectors counts as empty and
      is refused as missing. */
  lemma SelectorsOnlyIsRequired(s: string)
    requires forall i :: 0 <= i < |s| ==> IsSelector(s[i])
    ensures NameRequired in CreateTagErrors(Text(s))
  {
    ZeroLengthSelectorsOnly(s);
  }
}
