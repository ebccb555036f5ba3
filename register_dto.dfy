/** The body of `POST /auth/register`. */
module RegisterDto {
  import opened Validation

  const EmailMessage: string := "Please provide a valid email address"
  const PasswordTooShort: string := "Password must be at least 8 characters long"
  const PasswordTooLong: string := "Password is too long"
  const NameTooShort: string := "Name must be at least 2 characters long"
  const NameTooLong: string := "Name is too long"

  /** The messages the pipe answers for a registration body; `isEmail` is the
      validator library's address check. */
  function RegisterErrors(email: Value, password: Value, name: Value, isEmail: string -> bool): (errors: set<string>)
    ensures errors == {} <==>
      && email.Text? && isEmail(email.s)
      && password.Text? && 8 <= ValidatorLength(password.s) <= 100
      && name.Text? && 2 <= ValidatorLength(name.s) <= 100
  {
    (if email.Text? && isEmail(email.s) then {} else {EmailMessage})
    + LengthErrors("password", password, 8, 100, PasswordTooShort, PasswordTooLong)
    + LengthErrors("name", name, 2, 100, NameTooShort, NameTooLong)
  }

  /** Each bound is reported with its own message. */
  lemma RegisterBounds(email: Value, password: string, name: string, isEmail: string -> bool)
    ensures var errors := RegisterErrors(email, Text(password), Text(name), isEmail);
      && (PasswordTooShort in errors <==> ValidatorLength(password) < 8)
      && (PasswordTooLong in errors <==> ValidatorLength(password) > 100)
      && (NameTooShort in errors <==> ValidatorLength(name) < 2)
      && (NameTooLong in errors <==> ValidatorLength(name) > 100)
  {
    var p := LengthErrors("password", Text(password), 8, 100, PasswordTooShort, PasswordTooLong);
    var n := LengthErrors("name", Text(name), 2, 100, NameTooShort, NameTooLong);
    assert p <= {PasswordTooShort, PasswordTooLong};
    assert n <= {NameTooShort, NameTooLong};
  }
}
