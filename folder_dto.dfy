/** The bodies of `POST /folders` and `PATCH /folders/:id`. */
module FolderDto {
  import opened Validation

  const NameRequired: string := "Folder name is required"
  const NameTooLong: string := "Folder name is too long"

  /** `CreateFolderDto`. */
  function CreateFolderErrors(name: Value): (errors: set<string>)
    ensures errors == {} <==> name.Text? && 1 <= ValidatorLength(name.s) <= 100
    ensures name.Text? ==> (NameRequired in errors <==> ValidatorLength(name.s) == 0)
    ensures name.Text? ==> (NameTooLong in errors <==> ValidatorLength(name.s) > 100)
  {
    LengthErrors("name", name, 1, 100, NameRequired, NameTooLong)
  }

  /** `UpdateFolderDto`, declared separately with its own decorators. */
  function UpdateFolderErrors(name: Value): (errors: set<string>)
    ensures errors == {} <==> name.Text? && 1 <= ValidatorLength(name.s) <= 100
  {
    LengthErrors("name", name, 1, 100, NameRequired, NameTooLong)
  }

  /** Renaming accepts exactly the names creating does, with the same messages. */
  lemma SameRulesForCreateAndUpdate(name: Value)
    ensures CreateFolderErrors(name) == UpdateFolderErrors(name)
  {
  }
}
